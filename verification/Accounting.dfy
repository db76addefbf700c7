// The durable records behind fuzz-time accounting and every order in which a controller
// process can write them. Each event is one write (or one session outcome); Crash may come
// between any two of them and loses only what the process holds in memory.
module Accounting {
  import opened Basics
  import opened FuzzTime

  type Id = nat

  datatype Kind = Passed | Restarted | Found | LogLimited | BadExit

  // The fuzz-run record of the latest session.
  datatype RunRecord = RunRecord(id: Id, requested: nat, accounted: nat, kind: Kind)

  // One line of the session list; only charged libFuzzer results carry `accounted`.
  datatype Session = Session(id: Option<Id>, afl: bool, interrupted: bool,
                             requested: nat, elapsed: nat, accounted: Option<nat>)

  datatype Progress = Progress(completed: nat, last: Option<Id>, aflCounted: bool, sessions: seq<Session>)

  datatype AflRecord = AflFailed | AflDone(requested: nat, elapsed: nat)

  // Gate covers the stages before fuzzing, Resting a fuzzing job that waits for a recovery, Closed
  // one that was handed to triage.
  datatype Status = Gate | Ready | Running | Interrupted | AflPending | AflRunning | HarnessPending | Resting | Closed

  datatype Disk = Disk(
    status: Status, active: Option<Id>,
    progress: Option<Progress>, run: Option<RunRecord>, aflRun: Option<AflRecord>)

  datatype Process =
    | Idle
    | InSession(id: Id, requested: nat, memory: Progress)
    | Ended(memory: Progress, result: RunRecord)
    | Raised(id: Id, elapsed: nat, memory: Progress)
    | Saved(interrupted: bool)
    | InAfl(limit: nat)
    | AflEnded
    | AflSaved
    | RunMoved
    | ProgressMoved(continuation: Progress)
    | Rebuilt

  datatype Source = LibFuzzer(id: Id) | AflLane

  // What was added to a completed total, and by which session.
  datatype Addition = Addition(source: Source, amount: nat)

  // `ledger`, `lost` and `byHand` are history variables: every addition ever made, every total
  // that no record holds any more, and whether the record of an AFL lane was ever taken up on a
  // job whose lane was neither pending nor running.
  datatype World = World(disk: Disk, process: Process, next: Id, ledger: seq<Addition>, lost: nat, byHand: bool)

  datatype Event =
    | Start(requested: nat)
    | Replay
    | Finish(kind: Kind, accounted: nat)
    | WriteBadRun
    | Raise(elapsed: nat)
    | SaveProgress
    | SaveState(status: Status)
    | Abandon
    | Stop
    | Return
    | Reopen
    | Restart
    | ScheduleHarness
    | StartAfl(limit: nat)
    | FinishAfl(elapsed: nat)
    | FailAfl
    | ReplayAfl
    | MoveRun
    | MoveProgress
    | WriteContinuation
    | Approve
    | Crash

  const EMPTY := Progress(0, None, false, [])

  // What the next process reads: a missing progress file counts as no time at all.
  function Current(d: Disk): Progress {
    if d.progress.Some? then d.progress.value else EMPTY
  }

  predicate CompleteResult(kind: Kind) {
    kind == Passed || kind == Restarted || kind == Found
  }

  predicate Replayable(d: Disk) {
    d.active.Some? && d.run.Some? && d.run.value.id == d.active.value && CompleteResult(d.run.value.kind)
  }

  predicate Fuzzable(s: Status) {
    s == Ready || s == Running || s == Interrupted
  }

  predicate Archivable(s: Status) {
    s == HarnessPending || s == Gate
  }

  // The stage calls look at the stage alone; the worker makes them only in some of its statuses.
  predicate FuzzingStage(s: Status) {
    s != Gate && s != Closed
  }

  predicate AflDue(s: Status) {
    s == AflPending || s == AflRunning
  }

  predicate ValidResult(requested: nat, kind: Kind, accounted: nat) {
    match kind
    case Passed => accounted == requested * 1000
    case Restarted => accounted >= 300_000
    case _ => 0 < accounted <= requested * 1000
  }

  // The accounting block: charge the session unless it is the one charged last.
  function Account(budget: int, p: Progress, r: RunRecord): Progress {
    var charge := Charge(budget, p.completed, r.accounted);
    if p.last == Some(r.id) then p
    else p.(completed := p.completed + charge, last := Some(r.id),
            sessions := p.sessions + [Session(Some(r.id), false, false, r.requested * 1000, r.accounted, Some(charge))])
  }

  function AccountInterruption(p: Progress, id: Id, requested: nat, elapsed: nat): Progress {
    p.(completed := p.completed + elapsed,
       sessions := p.sessions + [Session(Some(id), false, true, requested * 1000, elapsed, None)])
  }

  function AccountAfl(p: Progress, requested: nat, elapsed: nat): Progress {
    if p.aflCounted then p
    else p.(completed := p.completed + Min(requested * 1000, elapsed), aflCounted := true,
            sessions := p.sessions + [Session(None, true, false, requested * 1000, elapsed, None)])
  }

  // What survives the archive that precedes a rebuilt harness.
  function Continuation(p: Progress): Progress {
    p.(aflCounted := false)
  }

  predicate Enabled(budget: int, w: World, e: Event) {
    var d, p := w.disk, w.process;
    match e
    case Start(requested) =>
      p.Idle? && Fuzzable(d.status) && !Replayable(d) && 1 <= requested <= Remaining(budget, Current(d).completed)
    case Replay => p.Idle? && Fuzzable(d.status) && Replayable(d)
    case Finish(kind, accounted) => p.InSession? && kind != BadExit && ValidResult(p.requested, kind, accounted)
    case WriteBadRun => p.InSession?
    case Raise(elapsed) => p.InSession? && elapsed <= p.requested * 1000
    case SaveProgress =>
      p.Ended? || p.Raised? || (p.AflEnded? && (d.progress.Some? || d.aflRun == Some(AflRecord.AflFailed)))
    case SaveState(s) =>
      || (p.Saved? && p.interrupted && s == Interrupted)
      || (p.Saved? && !p.interrupted && (s == Closed || s == Resting))
      || (p.Saved? && !p.interrupted && Current(d).completed < budget * 1000 &&
            (s == Ready || s == HarnessPending || (s == AflPending && d.aflRun.None?)))
      || (p.AflSaved? && (s == Closed || s == Ready || s == HarnessPending))
      || (p.Rebuilt? && s == Gate)
    case Abandon =>
      || p.Ended? || p.Saved? || p.AflEnded? || p.AflSaved?
      || (p.Idle? && (Fuzzable(d.status) || AflDue(d.status)))
    case Stop => p.Idle? && Fuzzable(d.status) && !Replayable(d) && d.run.Some?
    case Return => p.Idle? && d.status == Closed
    case Reopen => p.Idle? && d.status == Resting
    case Restart => p.Idle? && d.status == Resting
    case ScheduleHarness => p.Idle? && Fuzzable(d.status)
    case StartAfl(limit) =>
      && p.Idle? && FuzzingStage(d.status) && d.aflRun.None? && d.progress.Some?
      && limit <= Remaining(budget, Current(d).completed)
    case FinishAfl(_) => p.InAfl? && p.limit >= 1
    case FailAfl => p.InAfl?
    case ReplayAfl => p.Idle? && FuzzingStage(d.status) && d.aflRun.Some?
    case MoveRun => p.Idle? && Archivable(d.status)
    case MoveProgress => p.RunMoved?
    case WriteContinuation => p.ProgressMoved?
    case Approve => p.Idle? && d.status == Gate
    case Crash => true
  }

  function After(budget: int, w: World, e: Event): World
    requires Enabled(budget, w, e)
  {
    var d, p := w.disk, w.process;
    match e
    case Start(requested) =>
      w.(disk := d.(status := Running, active := Some(w.next)),
         process := InSession(w.next, requested, Current(d)), next := w.next + 1)
    case Replay => w.(process := Ended(Current(d), d.run.value))
    case Finish(kind, accounted) =>
      var r := RunRecord(p.id, p.requested, accounted, kind);
      w.(disk := d.(run := Some(r)), process := Ended(p.memory, r))
    case WriteBadRun =>
      w.(disk := d.(run := Some(RunRecord(p.id, p.requested, p.requested * 1000, BadExit))))
    case Raise(elapsed) =>
      w.(process := Raised(p.id, elapsed, AccountInterruption(p.memory, p.id, p.requested, elapsed)))
    case SaveProgress => AfterSave(budget, w)
    case SaveState(s) =>
      w.(disk := d.(status := s, active := if p.Rebuilt? || p.AflSaved? then d.active else None), process := Idle)
    case Abandon => w.(disk := d.(status := Resting), process := Idle)
    case Stop => w.(disk := d.(status := Closed, active := None))
    case Return => w.(disk := d.(status := Ready))
    case Reopen => w.(disk := d.(status := Interrupted))
    case Restart => w.(disk := d.(status := Gate))
    case ScheduleHarness => w.(disk := d.(status := HarnessPending))
    case StartAfl(limit) => w.(disk := d.(status := AflRunning), process := InAfl(limit))
    case FinishAfl(elapsed) => w.(disk := d.(aflRun := Some(AflDone(p.limit, elapsed))), process := AflEnded)
    case FailAfl => w.(disk := d.(aflRun := Some(AflRecord.AflFailed)), process := AflEnded)
    case ReplayAfl => w.(process := AflEnded, byHand := w.byHand || !AflDue(d.status))
    case MoveRun => w.(disk := d.(run := None), process := RunMoved)
    case MoveProgress =>
      if d.progress.None? then w.(process := Rebuilt)
      else w.(disk := d.(progress := None), process := ProgressMoved(Continuation(d.progress.value)))
    case WriteContinuation => w.(disk := d.(progress := Some(p.continuation)), process := Rebuilt)
    case Approve => w.(disk := d.(status := Ready))
    case Crash =>
      w.(process := Idle, lost := if p.ProgressMoved? then w.lost + p.continuation.completed else w.lost)
  }

  // A progress record replaced on disk, with what it adds.
  function Saving(w: World, p: Progress, next: Process, a: Addition): World {
    w.(disk := w.disk.(progress := Some(p)), process := next, ledger := w.ledger + [a])
  }

  function AfterSave(budget: int, w: World): World
    requires w.process.Ended? || w.process.Raised? || w.process.AflEnded?
  {
    match w.process
    case Ended(memory, r) =>
      var charge := Charge(budget, memory.completed, r.accounted);
      if memory.last == Some(r.id) || charge == 0 then w.(process := Saved(false))
      else Saving(w, Account(budget, memory, r), Saved(false), Addition(LibFuzzer(r.id), charge))
    case Raised(id, elapsed, memory) => Saving(w, memory, Saved(true), Addition(LibFuzzer(id), elapsed))
    case AflEnded =>
      var before, afl := Current(w.disk), w.disk.aflRun;
      if before.aflCounted || afl.None? || afl.value.AflFailed? then w.(process := AflSaved)
      else
        var r := afl.value;
        Saving(w, AccountAfl(before, r.requested, r.elapsed), AflSaved, Addition(AflLane, Min(r.requested * 1000, r.elapsed)))
  }

  function NewWorld(): World {
    World(Disk(Gate, None, None, None, None), Idle, 0, [], 0, false)
  }

  // ---------- derived quantities ----------

  function Sum(ledger: seq<Addition>): nat {
    if ledger == [] then 0 else Sum(ledger[..|ledger| - 1]) + ledger[|ledger| - 1].amount
  }

  // The total that the records, or a process about to write them, still know.
  function Known(w: World): nat {
    Current(w.disk).completed + if w.process.ProgressMoved? then w.process.continuation.completed else 0
  }

  function Contribution(s: Session): nat {
    if s.accounted.Some? then s.accounted.value
    else if s.interrupted then s.elapsed
    else Min(s.requested, s.elapsed)
  }

  function Contributions(sessions: seq<Session>): nat {
    if sessions == [] then 0
    else Contributions(sessions[..|sessions| - 1]) + Contribution(sessions[|sessions| - 1])
  }

  predicate Charged(ledger: seq<Addition>, source: Source) {
    exists i :: 0 <= i < |ledger| && ledger[i].source == source
  }

  // ---------- the invariant ----------

  // Below the budget plus a second, and within the budget while only finished sessions counted.
  predicate Bounded(budget: int, p: Progress) {
    && p.completed < (Max(0, budget) + 1) * 1000
    && ((forall s :: s in p.sessions ==> s.accounted.Some?) ==> p.completed <= Max(0, budget) * 1000)
  }

  predicate WellKept(budget: int, p: Progress, byHand: bool) {
    p.completed == Contributions(p.sessions) && (!byHand ==> Bounded(budget, p))
  }

  // Only a lane that was taken up by hand is on the ledger twice.
  predicate Once(ledger: seq<Addition>, byHand: bool) {
    forall i, k :: 0 <= i < k < |ledger| && ledger[i].source == ledger[k].source ==> ledger[i].source.AflLane? && byHand
  }

  // What a progress record says was charged is on the ledger.
  predicate Recorded(ledger: seq<Addition>, p: Progress) {
    && (p.last.Some? ==> Charged(ledger, LibFuzzer(p.last.value)))
    && (p.aflCounted ==> Charged(ledger, AflLane))
  }

  predicate ValidRecord(r: RunRecord) {
    && r.requested >= 1 && r.accounted > 0
    && (r.kind != BadExit ==> ValidResult(r.requested, r.kind, r.accounted))
  }

  // An AFL record about to be applied is marked as counted if it was, and fits the budget if not.
  predicate AflReady(budget: int, w: World)
    requires w.disk.aflRun.Some?
  {
    var p := Current(w.disk);
    if p.aflCounted then Charged(w.ledger, AflLane)
    else
      && !Charged(w.ledger, AflLane)
      && (w.disk.aflRun.value.AflDone? ==> 1 <= w.disk.aflRun.value.requested <= Remaining(budget, p.completed))
  }

  // What ties the process's memory to the records.
  predicate InStep(budget: int, w: World) {
    var d := w.disk;
    match w.process
    case Idle => true
    case InSession(id, requested, memory) =>
      && d.active == Some(id) && id < w.next && d.status == Running && !Charged(w.ledger, LibFuzzer(id))
      && memory == Current(d) && 1 <= requested <= Remaining(budget, memory.completed)
      && (d.run.Some? && d.run.value.id == id ==> d.run.value.kind == BadExit)
    case Ended(memory, r) =>
      && d.active == Some(r.id) && r.id < w.next && Fuzzable(d.status) && memory == Current(d)
      && d.run == Some(r) && (Charged(w.ledger, LibFuzzer(r.id)) ==> memory.last == Some(r.id))
    case Raised(id, elapsed, memory) =>
      && d.active == Some(id) && id < w.next && d.status == Running && !Charged(w.ledger, LibFuzzer(id))
      && (d.run.Some? && d.run.value.id == id ==> d.run.value.kind == BadExit)
      && WellKept(budget, memory, w.byHand) && memory.completed == Current(d).completed + elapsed
      && memory.last == Current(d).last && memory.aflCounted == Current(d).aflCounted
    case Saved(_) => Fuzzable(d.status)
    case InAfl(limit) =>
      d.status == AflRunning && d.aflRun.None? && d.progress.Some? && limit <= Remaining(budget, Current(d).completed)
    case AflEnded => d.aflRun.Some? && (d.status == AflRunning || w.byHand)
    case AflSaved => d.aflRun.Some?
    case RunMoved => d.run.None? && Archivable(d.status)
    case ProgressMoved(c) =>
      && d.run.None? && Archivable(d.status) && d.progress.None?
      && WellKept(budget, c, w.byHand) && Recorded(w.ledger, c)
    case Rebuilt => d.run.None? && Archivable(d.status)
  }

  // What the ledger says, and how the records agree with it.
  predicate Balanced(w: World) {
    && Once(w.ledger, w.byHand)
    && (forall i :: 0 <= i < |w.ledger| && w.ledger[i].source.LibFuzzer? ==> w.ledger[i].source.id < w.next)
    && (Charged(w.ledger, AflLane) ==> w.disk.aflRun.Some?)
    && Sum(w.ledger) == Known(w) + w.lost
  }

  predicate Sound(budget: int, w: World) {
    && (w.disk.active.Some? ==> w.disk.active.value < w.next)
    && (w.disk.run.Some? ==> w.disk.run.value.id < w.next && ValidRecord(w.disk.run.value))
    && (Replayable(w.disk) && Charged(w.ledger, LibFuzzer(w.disk.active.value)) ==> Current(w.disk).last == w.disk.active)
    && (w.disk.status == AflPending ==> w.disk.aflRun.None?)
    && (w.disk.status == AflRunning && w.disk.aflRun.Some? ==> AflReady(budget, w))
    && WellKept(budget, Current(w.disk), w.byHand) && Recorded(w.ledger, Current(w.disk))
  }

  predicate Inv(budget: int, w: World) {
    Balanced(w) && Sound(budget, w) && InStep(budget, w)
  }

  lemma LedgerSnoc(ledger: seq<Addition>, a: Addition)
    ensures Sum(ledger + [a]) == Sum(ledger) + a.amount
    ensures forall s :: Charged(ledger + [a], s) <==> Charged(ledger, s) || s == a.source
    ensures forall b :: Once(ledger, b) && (!Charged(ledger, a.source) || (b && a.source.AflLane?)) ==> Once(ledger + [a], b)
  {
    var longer := ledger + [a];
    assert longer[..|ledger|] == ledger;
    forall s
      ensures Charged(longer, s) <==> Charged(ledger, s) || s == a.source
    {
      if Charged(ledger, s) {
        var i :| 0 <= i < |ledger| && ledger[i].source == s;
        assert longer[i].source == s;
      }
      assert longer[|ledger|] == a;
    }
  }

  lemma SessionsSnoc(sessions: seq<Session>, s: Session)
    ensures Contributions(sessions + [s]) == Contributions(sessions) + Contribution(s)
  {
    assert (sessions + [s])[..|sessions|] == sessions;
  }

  // A session that fits the remaining whole seconds overshoots the budget by less than one.
  lemma FitsRemaining(budget: int, completed: nat, elapsed: nat)
    requires elapsed <= Remaining(budget, completed) * 1000 && completed < (Max(0, budget) + 1) * 1000
    ensures completed + elapsed < (Max(0, budget) + 1) * 1000
  {
  }

  lemma AccountKept(budget: int, p: Progress, r: RunRecord, byHand: bool)
    requires WellKept(budget, p, byHand)
    ensures WellKept(budget, Account(budget, p, r), byHand)
  {
    if p.last != Some(r.id) {
      var charge := Charge(budget, p.completed, r.accounted);
      SessionsSnoc(p.sessions, Session(Some(r.id), false, false, r.requested * 1000, r.accounted, Some(charge)));
      if !byHand {
        AccountBounded(budget, p, r);
      }
    }
  }

  lemma AccountBounded(budget: int, p: Progress, r: RunRecord)
    requires Bounded(budget, p)
    ensures Bounded(budget, Account(budget, p, r))
  {
    var q := Account(budget, p, r);
    assert forall x :: x in p.sessions ==> x in q.sessions;
  }

  lemma InterruptionKept(budget: int, p: Progress, id: Id, requested: nat, elapsed: nat, byHand: bool)
    requires WellKept(budget, p, byHand)
    requires requested <= Remaining(budget, p.completed) && elapsed <= requested * 1000
    ensures WellKept(budget, AccountInterruption(p, id, requested, elapsed), byHand)
  {
    var s := Session(Some(id), false, true, requested * 1000, elapsed, None);
    SessionsSnoc(p.sessions, s);
    assert s in p.sessions + [s];
    if !byHand {
      FitsRemaining(budget, p.completed, elapsed);
    }
  }

  lemma AflKept(budget: int, p: Progress, requested: nat, elapsed: nat, byHand: bool)
    requires WellKept(budget, p, byHand) && (byHand || requested <= Remaining(budget, p.completed))
    ensures WellKept(budget, AccountAfl(p, requested, elapsed), byHand)
  {
    var s := Session(None, true, false, requested * 1000, elapsed, None);
    SessionsSnoc(p.sessions, s);
    assert s in p.sessions + [s];
    if !byHand {
      FitsRemaining(budget, p.completed, Min(requested * 1000, elapsed));
    }
  }

  lemma SaveResultKeepsInv(budget: int, w: World)
    requires Inv(budget, w) && w.process.Ended?
    ensures Inv(budget, AfterSave(budget, w))
  {
    var memory, r := w.process.memory, w.process.result;
    var charge := Charge(budget, memory.completed, r.accounted);
    if memory.last == Some(r.id) || charge == 0 {
      assert AfterSave(budget, w) == w.(process := Saved(false));
    } else {
      AccountKept(budget, memory, r, w.byHand);
      SessionSaved(budget, w, Account(budget, memory, r), false, r.id, charge);
    }
  }

  // Replacing the progress record by one that knows exactly one addition more.
  lemma SavingBalances(w: World, p: Progress, next: Process, a: Addition)
    requires Balanced(w) && !w.process.ProgressMoved? && !next.ProgressMoved?
    requires !Charged(w.ledger, a.source) || (w.byHand && a.source.AflLane?)
    requires p.completed == Current(w.disk).completed + a.amount
    requires if a.source.LibFuzzer? then a.source.id < w.next else w.disk.aflRun.Some?
    ensures Balanced(Saving(w, p, next, a))
  {
    LedgerSnoc(w.ledger, a);
  }

  lemma SessionSaved(budget: int, w: World, p: Progress, interrupted: bool, id: Id, amount: nat)
    requires Inv(budget, w) && (w.process.Ended? || w.process.Raised?)
    requires w.disk.active == Some(id) && !Charged(w.ledger, LibFuzzer(id))
    requires WellKept(budget, p, w.byHand) && p.completed == Current(w.disk).completed + amount
    requires p.last == Some(id) || (!Replayable(w.disk) && p.last == Current(w.disk).last)
    requires p.aflCounted == Current(w.disk).aflCounted
    ensures Inv(budget, Saving(w, p, Saved(interrupted), Addition(LibFuzzer(id), amount)))
  {
    var a := Addition(LibFuzzer(id), amount);
    SavingBalances(w, p, Saved(interrupted), a);
    LedgerSnoc(w.ledger, a);
  }

  // Replacing it by one that also knows the lane.
  lemma LaneSaved(budget: int, w: World, p: Progress, amount: nat)
    requires Inv(budget, w) && w.process.AflEnded? && (w.byHand || !Charged(w.ledger, AflLane))
    requires WellKept(budget, p, w.byHand) && p.completed == Current(w.disk).completed + amount
    requires p.last == Current(w.disk).last && p.aflCounted
    ensures Inv(budget, Saving(w, p, AflSaved, Addition(AflLane, amount)))
  {
    var a := Addition(AflLane, amount);
    SavingBalances(w, p, AflSaved, a);
    LedgerSnoc(w.ledger, a);
  }

  lemma SaveInterruptionKeepsInv(budget: int, w: World)
    requires Inv(budget, w) && w.process.Raised?
    ensures Inv(budget, AfterSave(budget, w))
  {
    SessionSaved(budget, w, w.process.memory, true, w.process.id, w.process.elapsed);
  }

  lemma SaveAflKeepsInv(budget: int, w: World)
    requires Inv(budget, w) && w.process.AflEnded?
    ensures Inv(budget, AfterSave(budget, w))
  {
    var p, r := Current(w.disk), w.disk.aflRun.value;
    if r.AflDone? && !p.aflCounted {
      AflKept(budget, p, r.requested, r.elapsed, w.byHand);
      LaneSaved(budget, w, AccountAfl(p, r.requested, r.elapsed), Min(r.requested * 1000, r.elapsed));
    } else {
      assert AfterSave(budget, w) == w.(process := AflSaved);
    }
  }

  // A change of what the process holds leaves the records as they are.
  lemma ProcessKeepsRecords(budget: int, w: World, next: Process)
    requires Balanced(w) && Sound(budget, w) && !w.process.ProgressMoved? && !next.ProgressMoved?
    ensures Balanced(w.(process := next)) && Sound(budget, w.(process := next))
  {
  }

  lemma RaiseKeepsInv(budget: int, w: World, elapsed: nat)
    requires Inv(budget, w) && Enabled(budget, w, Raise(elapsed))
    ensures Inv(budget, After(budget, w, Raise(elapsed)))
  {
    var p := w.process;
    var memory := AccountInterruption(p.memory, p.id, p.requested, elapsed);
    InterruptionKept(budget, p.memory, p.id, p.requested, elapsed, w.byHand);
    ProcessKeepsRecords(budget, w, Raised(p.id, elapsed, memory));
    assert After(budget, w, Raise(elapsed)) == w.(process := Raised(p.id, elapsed, memory));
  }

  lemma SessionKeepsInv(budget: int, w: World, e: Event)
    requires Inv(budget, w) && Enabled(budget, w, e)
    requires e.Start? || e.Replay? || e.Finish? || e.WriteBadRun? || e.Abandon?
    ensures Inv(budget, After(budget, w, e))
  {
  }

  lemma LaneKeepsInv(budget: int, w: World, e: Event)
    requires Inv(budget, w) && Enabled(budget, w, e)
    requires e.StartAfl? || e.FinishAfl? || e.FailAfl? || e.ReplayAfl?
    ensures Inv(budget, After(budget, w, e))
  {
  }

  lemma ArchiveKeepsInv(budget: int, w: World, e: Event)
    requires Inv(budget, w) && Enabled(budget, w, e)
    requires e.MoveRun? || e.MoveProgress? || e.WriteContinuation? || e.Crash?
    ensures Inv(budget, After(budget, w, e))
  {
  }

  lemma StatusKeepsInv(budget: int, w: World, e: Event)
    requires Inv(budget, w) && Enabled(budget, w, e)
    requires e.SaveState? || e.Stop? || e.Return? || e.Reopen? || e.Restart? || e.ScheduleHarness? || e.Approve?
    ensures Inv(budget, After(budget, w, e))
  {
  }

  lemma InvPreserved(budget: int, w: World, e: Event)
    requires Inv(budget, w) && Enabled(budget, w, e)
    ensures Inv(budget, After(budget, w, e))
  {
    if e.SaveProgress? {
      if w.process.Ended? {
        SaveResultKeepsInv(budget, w);
      } else if w.process.Raised? {
        SaveInterruptionKeepsInv(budget, w);
      } else {
        SaveAflKeepsInv(budget, w);
      }
    } else if e.Raise? {
      RaiseKeepsInv(budget, w, e.elapsed);
    } else if e.Start? || e.Replay? || e.Finish? || e.WriteBadRun? || e.Abandon? {
      SessionKeepsInv(budget, w, e);
    } else if e.StartAfl? || e.FinishAfl? || e.FailAfl? || e.ReplayAfl? {
      LaneKeepsInv(budget, w, e);
    } else if e.MoveRun? || e.MoveProgress? || e.WriteContinuation? || e.Crash? {
      ArchiveKeepsInv(budget, w, e);
    } else {
      StatusKeepsInv(budget, w, e);
    }
  }

  // ---------- whole runs ----------

  predicate Step(budget: int, w: World, e: Event, v: World) {
    Enabled(budget, w, e) && v == After(budget, w, e)
  }

  predicate Moves(budget: int, ws: seq<World>, es: seq<Event>, i: nat)
    requires i < |es| < |ws|
  {
    Step(budget, ws[i], es[i], ws[i + 1])
  }

  // A run of the controller, crashes included, from the first record of a job.
  predicate Run(budget: int, ws: seq<World>, es: seq<Event>) {
    && |ws| == |es| + 1 && ws[0] == NewWorld()
    && forall i :: 0 <= i < |es| ==> Moves(budget, ws, es, i)
  }

  lemma NewIsBalanced()
    ensures Balanced(NewWorld())
  {
  }

  lemma NewIsSound(budget: int)
    ensures Sound(budget, NewWorld())
  {
  }

  lemma NewInv(budget: int)
    ensures Inv(budget, NewWorld())
  {
    NewIsBalanced();
    NewIsSound(budget);
  }

  lemma StepKeepsInv(budget: int, w: World, e: Event, v: World)
    requires Inv(budget, w) && Step(budget, w, e, v)
    ensures Inv(budget, v)
  {
    InvPreserved(budget, w, e);
  }

  lemma {:induction false} ReachableInv(budget: int, ws: seq<World>, es: seq<Event>, n: nat)
    requires Run(budget, ws, es) && n <= |es|
    ensures Inv(budget, ws[n])
  {
    if n == 0 {
      NewInv(budget);
    } else {
      ReachableInv(budget, ws, es, n - 1);
      assert Moves(budget, ws, es, n - 1);
      StepKeepsInv(budget, ws[n - 1], es[n - 1], ws[n]);
    }
  }

  // The record of a lane was taken up on a job whose lane was neither pending nor running: only
  // the command that runs the lane by hand does so.
  predicate TakenByHand(ws: seq<World>, es: seq<Event>, n: nat)
    requires n <= |es| < |ws|
  {
    exists i :: 0 <= i < n && es[i].ReplayAfl? && !AflDue(ws[i].disk.status)
  }

  lemma {:induction false} ByHandExactly(budget: int, ws: seq<World>, es: seq<Event>, n: nat)
    requires Run(budget, ws, es) && n <= |es|
    ensures ws[n].byHand <==> TakenByHand(ws, es, n)
  {
    if n > 0 {
      ByHandExactly(budget, ws, es, n - 1);
      assert Moves(budget, ws, es, n - 1);
    }
  }

  // Wherever the process crashes, no session is added to a completed total twice; neither is the
  // AFL lane, unless its record was taken up by hand.
  lemma ChargedAtMostOnce(budget: int, ws: seq<World>, es: seq<Event>, n: nat, i: nat, k: nat)
    requires Run(budget, ws, es) && n <= |es| && i < |ws[n].ledger| && k < |ws[n].ledger|
    requires ws[n].ledger[i].source == ws[n].ledger[k].source
    ensures i == k || (ws[n].ledger[i].source == AflLane && TakenByHand(ws, es, n))
  {
    ReachableInv(budget, ws, es, n);
    ByHandExactly(budget, ws, es, n);
  }

  // The completed total is exactly what the session list adds up to. Unless a lane was taken up
  // by hand it stays below the budget plus one second, and within the budget while no session was
  // interrupted and no AFL lane ran.
  lemma BudgetKept(budget: int, ws: seq<World>, es: seq<Event>, n: nat)
    requires Run(budget, ws, es) && n <= |es|
    ensures var p := Current(ws[n].disk);
            && p.completed == Contributions(p.sessions)
            && (!TakenByHand(ws, es, n) ==>
                  && p.completed < (Max(0, budget) + 1) * 1000
                  && ((forall s :: s in p.sessions ==> s.accounted.Some?) ==> p.completed <= Max(0, budget) * 1000))
  {
    ReachableInv(budget, ws, es, n);
    ByHandExactly(budget, ws, es, n);
  }

  // Every millisecond ever added is in the current total or was lost with a record.
  lemma NothingElseLost(budget: int, ws: seq<World>, es: seq<Event>, n: nat)
    requires Run(budget, ws, es) && n <= |es|
    ensures Sum(ws[n].ledger) == Known(ws[n]) + ws[n].lost
  {
    ReachableInv(budget, ws, es, n);
  }

  // The known total drops exactly when the process crashes after moving the progress record
  // into the archive and before writing its continuation.
  lemma TotalDropsExactly(budget: int, ws: seq<World>, es: seq<Event>, n: nat)
    requires Run(budget, ws, es) && n < |es|
    ensures Known(ws[n + 1]) < Known(ws[n]) <==>
            es[n].Crash? && ws[n].process.ProgressMoved? && ws[n].process.continuation.completed > 0
  {
    ReachableInv(budget, ws, es, n);
    assert Moves(budget, ws, es, n);
  }

  // A crash between writing a finished session's record and charging it changes nothing: the
  // next process replays the record and saves exactly the progress that was about to be saved.
  lemma ReplayAddsTheSame(budget: int, ws: seq<World>, es: seq<Event>, n: nat)
    requires Run(budget, ws, es) && n <= |es|
    requires ws[n].process.Ended? && CompleteResult(ws[n].process.result.kind)
    ensures var w := ws[n];
            var crashed := After(budget, w, Crash);
            Enabled(budget, crashed, Replay) &&
            After(budget, After(budget, crashed, Replay), SaveProgress) == After(budget, w, SaveProgress)
  {
    ReachableInv(budget, ws, es, n);
  }

  predicate Holds(p: Process, id: Id) {
    (p.InSession? && p.id == id) || (p.Ended? && p.result.id == id) || (p.Raised? && p.id == id)
  }

  // Once no process holds a session whose record is incomplete, the session is never charged again.
  lemma {:induction false} IncompleteNeverCharged(budget: int, ws: seq<World>, es: seq<Event>, r: RunRecord,
                                                  n: nat, m: nat)
    requires Run(budget, ws, es) && n <= m <= |es|
    requires ws[n].disk.run == Some(r) && !CompleteResult(r.kind) && ws[n].process.Idle?
    ensures Charged(ws[m].ledger, LibFuzzer(r.id)) <==> Charged(ws[n].ledger, LibFuzzer(r.id))
    ensures !Holds(ws[m].process, r.id) && r.id < ws[m].next
    ensures ws[m].disk.run.Some? && ws[m].disk.run.value.id == r.id ==> ws[m].disk.run.value == r
    decreases m
  {
    ReachableInv(budget, ws, es, n);
    if m > n {
      IncompleteNeverCharged(budget, ws, es, r, n, m - 1);
      assert Moves(budget, ws, es, m - 1);
      if es[m - 1].SaveProgress? {
        SaveChargesOne(budget, ws[m - 1], LibFuzzer(r.id));
      }
    }
  }

  lemma SaveChargesOne(budget: int, w: World, source: Source)
    requires w.process.Ended? || w.process.Raised? || w.process.AflEnded?
    requires source.LibFuzzer? && !Holds(w.process, source.id)
    ensures Charged(AfterSave(budget, w).ledger, source) <==> Charged(w.ledger, source)
  {
    var longer := AfterSave(budget, w).ledger;
    if longer != w.ledger {
      LedgerSnoc(w.ledger, longer[|w.ledger|]);
      assert longer == w.ledger + [longer[|w.ledger|]];
    }
  }

  // A session that ran to its end, or long enough to be restarted, is charged when it ends or
  // when its record is replayed, and then lowers the whole seconds left unless it spends the
  // budget; charged before, it changes no record.
  lemma SessionLowersRemaining(budget: int, ws: seq<World>, es: seq<Event>, n: nat)
    requires Run(budget, ws, es) && n <= |es| && ws[n].process.Ended?
    requires ws[n].process.result.kind == Passed || ws[n].process.result.kind == Restarted
    ensures var w, v := ws[n], After(budget, ws[n], SaveProgress);
            var before, after := Current(w.disk).completed, Current(v.disk).completed;
            if Charged(w.ledger, LibFuzzer(w.process.result.id)) then v.disk == w.disk
            else after < budget * 1000 ==> Remaining(budget, after) < Remaining(budget, before)
    ensures n > 0 && es[n - 1].Finish? ==> !Charged(ws[n].ledger, LibFuzzer(ws[n].process.result.id))
  {
    ReachableInv(budget, ws, es, n);
    var p := ws[n].process;
    ChargeProgress(budget, p.memory.completed, p.result.accounted);
    if n > 0 {
      ReachableInv(budget, ws, es, n - 1);
      assert Moves(budget, ws, es, n - 1);
    }
  }

  // ---------- the total that drops ----------

  ghost predicate Ends(budget: int, ws: seq<World>, es: seq<Event>, w: World) {
    Run(budget, ws, es) && ws[|es|] == w
  }

  lemma Then(budget: int, ws: seq<World>, es: seq<Event>, w: World, e: Event) returns (vs: seq<World>, fs: seq<Event>)
    requires Ends(budget, ws, es, w) && Enabled(budget, w, e)
    ensures Ends(budget, vs, fs, After(budget, w, e)) && vs == ws + [After(budget, w, e)] && fs == es + [e]
  {
    vs, fs := ws + [After(budget, w, e)], es + [e];
    forall i | 0 <= i < |fs|
      ensures Moves(budget, vs, fs, i)
    {
      if i < |es| {
        assert Moves(budget, ws, es, i);
        assert vs[i] == ws[i] && vs[i + 1] == ws[i + 1] && fs[i] == es[i];
      }
    }
  }

  // Half a second of an interrupted session, charged and saved.
  const HALF := Progress(500, None, false, [Session(Some(0), false, true, 1000, 500, None)])

  function HalfWorld(status: Status, process: Process): World {
    World(Disk(status, None, Some(HALF), None, None), process, 1, [Addition(LibFuzzer(0), 500)], 0, false)
  }

  lemma ChargedRun(budget: int) returns (ws: seq<World>, es: seq<Event>)
    requires budget >= 1
    ensures Ends(budget, ws, es, HalfWorld(Interrupted, Idle))
  {
    var started := World(Disk(Running, Some(0), None, None, None), InSession(0, 1, EMPTY), 1, [], 0, false);
    var raised := started.(process := Raised(0, 500, HALF));
    var saved := World(Disk(Running, Some(0), Some(HALF), None, None), Saved(true), 1, [Addition(LibFuzzer(0), 500)], 0, false);
    var ready := NewWorld().(disk := NewWorld().disk.(status := Ready));
    assert AccountInterruption(EMPTY, 0, 1, 500) == HALF;
    assert [] + [Addition(LibFuzzer(0), 500)] == [Addition(LibFuzzer(0), 500)];
    ws, es := [NewWorld()], [];
    ws, es := Then(budget, ws, es, NewWorld(), Approve);
    ws, es := Then(budget, ws, es, ready, Start(1));
    ws, es := Then(budget, ws, es, started, Raise(500));
    ws, es := Then(budget, ws, es, raised, SaveProgress);
    ws, es := Then(budget, ws, es, saved, SaveState(Interrupted));
  }

  lemma DroppingRun(budget: int) returns (ws: seq<World>, es: seq<Event>)
    requires budget >= 1
    ensures Run(budget, ws, es) && |es| > 0 && Known(ws[|es|]) < Known(ws[|es| - 1])
  {
    var removed := HalfWorld(HarnessPending, ProgressMoved(HALF)).(disk := Disk(HarnessPending, None, None, None, None));
    ws, es := ChargedRun(budget);
    ws, es := Then(budget, ws, es, HalfWorld(Interrupted, Idle), ScheduleHarness);
    ws, es := Then(budget, ws, es, HalfWorld(HarnessPending, Idle), MoveRun);
    ws, es := Then(budget, ws, es, HalfWorld(HarnessPending, RunMoved), MoveProgress);
    ws, es := Then(budget, ws, es, removed, Crash);
  }

  // Without a budget no session starts and no lane works.
  predicate Timeless(w: World) {
    w.ledger == [] && !w.process.Raised? && (w.disk.aflRun.Some? ==> w.disk.aflRun.value.AflFailed?)
  }

  lemma NoTimeStep(budget: int, w: World, e: Event)
    requires budget <= 0 && Inv(budget, w) && Enabled(budget, w, e) && Timeless(w)
    ensures Timeless(After(budget, w, e))
  {
    if e.SaveProgress? && w.process.AflEnded? {
      assert AfterSave(budget, w) == w.(process := AflSaved);
    }
  }

  lemma {:induction false} NoBudgetNoTime(budget: int, ws: seq<World>, es: seq<Event>, n: nat)
    requires budget <= 0 && Run(budget, ws, es) && n <= |es|
    ensures Timeless(ws[n])
  {
    if n > 0 {
      NoBudgetNoTime(budget, ws, es, n - 1);
      ReachableInv(budget, ws, es, n - 1);
      assert Moves(budget, ws, es, n - 1);
      NoTimeStep(budget, ws[n - 1], es[n - 1]);
    }
  }

  ghost predicate Reachable(budget: int, w: World) {
    exists ws, es :: Ends(budget, ws, es, w)
  }

  lemma ReachableStep(budget: int, w: World, e: Event)
    requires Reachable(budget, w) && Enabled(budget, w, e)
    ensures Reachable(budget, After(budget, w, e))
  {
    var ws, es :| Ends(budget, ws, es, w);
    var vs, fs := Then(budget, ws, es, w, e);
  }

  lemma ReachableKept(budget: int, w: World)
    requires Reachable(budget, w)
    ensures WellKept(budget, Current(w.disk), w.byHand)
  {
    var ws, es :| Ends(budget, ws, es, w);
    ReachableInv(budget, ws, es, |es|);
  }

  lemma StartedIsUncharged(budget: int, w: World)
    requires Reachable(budget, w) && w.process.InSession?
    ensures !Charged(w.ledger, LibFuzzer(w.process.id))
  {
    var ws, es :| Ends(budget, ws, es, w);
    ReachableInv(budget, ws, es, |es|);
  }

  // An ended session is on the ledger exactly when its id is the one charged last.
  lemma ChargedIsLast(budget: int, w: World)
    requires Reachable(budget, w) && w.process.Ended?
    ensures Charged(w.ledger, LibFuzzer(w.process.result.id)) <==> w.process.memory.last == Some(w.process.result.id)
  {
    var ws, es :| Ends(budget, ws, es, w);
    ReachableInv(budget, ws, es, |es|);
  }

  // A lane marked as counted is on the ledger; while it runs the mark is exact, and what it would
  // add fits the time left.
  lemma LaneIsCounted(budget: int, w: World)
    requires Reachable(budget, w) && w.process.AflEnded?
    ensures w.disk.aflRun.Some? && (Current(w.disk).aflCounted ==> Charged(w.ledger, AflLane))
    ensures var r := w.disk.aflRun.value;
            w.disk.status == AflRunning ==>
              && (Charged(w.ledger, AflLane) ==> Current(w.disk).aflCounted)
              && (r.AflDone? && !Current(w.disk).aflCounted ==> r.requested <= Remaining(budget, Current(w.disk).completed))
  {
    var ws, es :| Ends(budget, ws, es, w);
    ReachableInv(budget, ws, es, |es|);
  }

  // A job whose lane is due and has a record is running it; without a record no lane is counted.
  lemma LaneDue(budget: int, w: World)
    requires Reachable(budget, w)
    ensures AflDue(w.disk.status) && w.disk.aflRun.Some? ==> w.disk.status == AflRunning
    ensures w.disk.aflRun.None? ==> !Charged(w.ledger, AflLane) && !Current(w.disk).aflCounted
  {
    var ws, es :| Ends(budget, ws, es, w);
    ReachableInv(budget, ws, es, |es|);
  }

  // ---------- the lane that is added again ----------

  // How often the session list names an AFL lane.
  function Lanes(sessions: seq<Session>): nat {
    if sessions == [] then 0 else Lanes(sessions[..|sessions| - 1]) + if sessions[|sessions| - 1].afl then 1 else 0
  }

  lemma LanesSnoc(sessions: seq<Session>, s: Session)
    ensures Lanes(sessions + [s]) == Lanes(sessions) + if s.afl then 1 else 0
  {
    assert (sessions + [s])[..|sessions|] == sessions;
  }

  // What taking up the record of a lane saves.
  function Retaken(budget: int, w: World): World
    requires Enabled(budget, w, ReplayAfl) && w.disk.progress.Some?
  {
    After(budget, After(budget, w, ReplayAfl), SaveProgress)
  }

  // Taking up the record of a lane adds it a second time exactly when the record is one of a lane
  // that worked, the progress record does not mark it as counted, and its session list already
  // names one; all three stand on disk before the call. Nothing bounds what it adds.
  lemma LaneAddedAgainExactly(budget: int, w: World)
    requires Reachable(budget, w) && Enabled(budget, w, ReplayAfl) && w.disk.progress.Some?
    ensures var p, q, r := Current(w.disk), Current(Retaken(budget, w).disk), w.disk.aflRun.value;
            && (Lanes(q.sessions) > Lanes(p.sessions) > 0 <==> r.AflDone? && !p.aflCounted && Lanes(p.sessions) > 0)
            && q.completed == p.completed + (if r.AflDone? && !p.aflCounted then Min(r.requested * 1000, r.elapsed) else 0)
            && |Retaken(budget, w).ledger| == |w.ledger| + if r.AflDone? && !p.aflCounted then 1 else 0
  {
    var p, r := Current(w.disk), w.disk.aflRun.value;
    if r.AflDone? && !p.aflCounted {
      LanesSnoc(p.sessions, Session(None, true, false, r.requested * 1000, r.elapsed, None));
    }
  }

  // The lane of a whole budget, charged on top of half a second.
  function LaneSession(budget: nat): Session {
    Session(None, true, false, budget * 1000, budget * 1000, None)
  }

  function LaneProgress(budget: nat, counted: bool): Progress {
    Progress(500 + budget * 1000, None, counted, HALF.sessions + [LaneSession(budget)])
  }

  function LaneWorld(budget: nat, status: Status, process: Process, progress: Option<Progress>): World {
    World(Disk(status, None, progress, None, Some(AflDone(budget, budget * 1000))), process, 1,
          [Addition(LibFuzzer(0), 500), Addition(AflLane, budget * 1000)], 0, false)
  }

  lemma LaneRun(budget: int) returns (ws: seq<World>, es: seq<Event>)
    requires budget >= 1
    ensures Ends(budget, ws, es, LaneWorld(budget, HarnessPending, Idle, Some(LaneProgress(budget, true))))
  {
    var running := HalfWorld(AflRunning, InAfl(budget));
    var ended := running.(disk := running.disk.(aflRun := Some(AflDone(budget, budget * 1000))), process := AflEnded);
    var saved := LaneWorld(budget, AflRunning, AflSaved, Some(LaneProgress(budget, true)));
    assert ended.ledger + [Addition(AflLane, budget * 1000)] == saved.ledger;
    ws, es := ChargedRun(budget);
    ws, es := Then(budget, ws, es, HalfWorld(Interrupted, Idle), StartAfl(budget));
    ws, es := Then(budget, ws, es, running, FinishAfl(budget * 1000));
    ws, es := Then(budget, ws, es, ended, SaveProgress);
    ws, es := Then(budget, ws, es, saved, SaveState(HarnessPending));
  }

  lemma RebuiltLaneRun(budget: int) returns (ws: seq<World>, es: seq<Event>)
    requires budget >= 1
    ensures Ends(budget, ws, es, LaneWorld(budget, Ready, Idle, Some(LaneProgress(budget, false))))
  {
    var counted, forgotten := Some(LaneProgress(budget, true)), Some(LaneProgress(budget, false));
    ws, es := LaneRun(budget);
    ws, es := Then(budget, ws, es, LaneWorld(budget, HarnessPending, Idle, counted), MoveRun);
    ws, es := Then(budget, ws, es, LaneWorld(budget, HarnessPending, RunMoved, counted), MoveProgress);
    ws, es := Then(budget, ws, es, LaneWorld(budget, HarnessPending, ProgressMoved(forgotten.value), None), WriteContinuation);
    ws, es := Then(budget, ws, es, LaneWorld(budget, HarnessPending, Rebuilt, forgotten), SaveState(Gate));
    ws, es := Then(budget, ws, es, LaneWorld(budget, Gate, Idle, forgotten), Approve);
  }

  ghost predicate Repeats(budget: int, ws: seq<World>, es: seq<Event>) {
    && Run(budget, ws, es)
    && exists i, k :: 0 <= i < k < |ws[|es|].ledger| && ws[|es|].ledger[i].source == ws[|es|].ledger[k].source == AflLane
  }

  // A rebuilt job whose lane is taken up by hand: the lane counts twice, beyond the bound.
  lemma RepeatingRun(budget: int) returns (ws: seq<World>, es: seq<Event>)
    requires budget >= 1
    ensures Repeats(budget, ws, es) && Current(ws[|es|].disk).completed >= (budget + 1) * 1000
  {
    var rebuilt := LaneWorld(budget, Ready, Idle, Some(LaneProgress(budget, false)));
    var taken := rebuilt.(process := AflEnded, byHand := true);
    ws, es := RebuiltLaneRun(budget);
    ws, es := Then(budget, ws, es, rebuilt, ReplayAfl);
    ws, es := Then(budget, ws, es, taken, SaveProgress);
    assert ws[|es|].ledger[1].source == ws[|es|].ledger[2].source == AflLane;
  }

  // Some run adds a lane twice, and exceeds the budget by a second and more, exactly when there
  // is a budget.
  lemma LaneCanRepeatExactly(budget: int)
    ensures (exists ws: seq<World>, es: seq<Event> ::
               Repeats(budget, ws, es) && Current(ws[|es|].disk).completed >= (budget + 1) * 1000) <==> budget >= 1
  {
    if budget >= 1 {
      var ws, es := RepeatingRun(budget);
    } else {
      forall ws, es | Run(budget, ws, es)
        ensures !Repeats(budget, ws, es)
      {
        NoBudgetNoTime(budget, ws, es, |es|);
      }
    }
  }

  ghost predicate Drops(budget: int, ws: seq<World>, es: seq<Event>, n: nat) {
    Run(budget, ws, es) && n < |es| && Known(ws[n + 1]) < Known(ws[n])
  }

  // Some run loses charged time exactly when there is a budget to charge.
  lemma TotalCanDropExactly(budget: int)
    ensures (exists ws, es, n :: Drops(budget, ws, es, n)) <==> budget >= 1
  {
    if budget >= 1 {
      var ws, es := DroppingRun(budget);
      assert Drops(budget, ws, es, |es| - 1);
    } else {
      forall ws, es, n: nat | Run(budget, ws, es) && n < |es|
        ensures !Drops(budget, ws, es, n)
      {
        NoBudgetNoTime(budget, ws, es, n);
        NothingElseLost(budget, ws, es, n);
      }
    }
  }

  // ---------- the stage calls that write the records ----------

  // What the checks behind a session ask for.
  datatype Judgement = GoOn | WantsHarness | WantsAfl | LowYield

  // How a started session ends: with a verdict, with a record that is not complete, or in a fault.
  datatype Ending = Finished(kind: Kind, accounted: nat) | BadExited(elapsed: nat) | Broke(elapsed: nat)

  predicate ValidEnding(requested: nat, e: Ending) {
    match e
    case Finished(kind, accounted) => kind != BadExit && ValidResult(requested, kind, accounted)
    case _ => e.elapsed <= requested * 1000
  }

  // How a call of the fuzzing stage ends.
  datatype Report = Scheduled | Stopped | Refused | Accounted(charge: nat) | Cut(elapsed: nat)

  function Gain(r: Report): nat {
    match r
    case Accounted(charge) => charge
    case Cut(elapsed) => elapsed
    case _ => 0
  }

  // The records of one job with the stage calls that change them. Every single write is an event
  // of the protocol above, so a process may be stopped after any of them.
  class FuzzRecords {
    const budget: int
    var status: Status
    var active: Option<Id>
    var progress: Option<Progress>
    var run: Option<RunRecord>
    var aflRun: Option<AflRecord>

    ghost var world: World

    constructor (budget: int)
      ensures this.budget == budget && At(Idle) && world == NewWorld()
    {
      this.budget := budget;
      status, active, progress, run, aflRun := Gate, None, None, None, None;
      world := NewWorld();
      assert Ends(budget, [NewWorld()], [], NewWorld());
    }

    function Records(): Disk
      reads this
    {
      Disk(status, active, progress, run, aflRun)
    }

    function Total(): nat
      reads this
    {
      Current(Records()).completed
    }

    ghost predicate At(p: Process)
      reads this
    {
      Reachable(budget, world) && world.disk == Records() && world.process == p
    }

    ghost method Write(e: Event)
      requires Reachable(budget, world) && Enabled(budget, world, e)
      modifies this`world
      ensures Reachable(budget, world) && world == After(budget, old(world), e)
    {
      ReachableStep(budget, world, e);
      world := After(budget, world, e);
    }

    method SaveCharge(r: RunRecord) returns (charge: nat)
      requires At(Ended(Current(Records()), r))
      modifies this`progress, this`world
      ensures At(Saved(false))
      ensures Total() == old(Total()) + charge
      ensures charge == if old(Charged(world.ledger, LibFuzzer(r.id))) then 0
                        else Min(r.accounted, Max(0, budget * 1000 - old(Total())))
      ensures world.ledger == if charge == 0 then old(world.ledger)
                              else old(world.ledger) + [Addition(LibFuzzer(r.id), charge)]
      ensures world.lost == old(world.lost) && world.next == old(world.next)
    {
      ChargedIsLast(budget, world);
      var p := Current(Records());
      charge := if p.last == Some(r.id) then 0 else Charge(budget, p.completed, r.accounted);
      if charge > 0 {
        var session := Session(Some(r.id), false, false, r.requested * 1000, r.accounted, Some(charge));
        p := p.(completed := p.completed + charge, last := Some(r.id), sessions := p.sessions + [session]);
        progress := Some(p);
      }
      Write(SaveProgress);
    }

    method Conclude(kind: Kind, j: Judgement)
      requires At(Saved(false))
      modifies this`status, this`active, this`world
      ensures At(Idle) && active == None
      ensures kind == Found ==> status == Closed
      ensures status == Resting <==> kind == LogLimited
      ensures status == Closed || status == Resting || Total() < budget * 1000
      ensures status == AflPending ==> aflRun == None
      ensures world.ledger == old(world.ledger) && world.lost == old(world.lost) && world.next == old(world.next)
    {
      status := if kind == Found then Closed
                else if kind == LogLimited then Resting
                else if j == LowYield || Total() >= budget * 1000 then Closed
                else if j == WantsHarness then HarnessPending
                else if j == WantsAfl && aflRun == None then AflPending
                else Ready;
      active := None;
      Write(SaveState(status));
    }

    // Charges an ended session unless it is on the ledger, and leaves the job in a fuzzable
    // status only with time left.
    method ApplyResult(r: RunRecord, j: Judgement) returns (charge: nat)
      requires At(Ended(Current(Records()), r))
      modifies this
      ensures At(Idle) && active == None && run == old(run) && aflRun == old(aflRun)
      ensures Total() == old(Total()) + charge
      ensures charge == if old(Charged(world.ledger, LibFuzzer(r.id))) then 0
                        else Min(r.accounted, Max(0, budget * 1000 - old(Total())))
      ensures world.ledger == if charge == 0 then old(world.ledger)
                              else old(world.ledger) + [Addition(LibFuzzer(r.id), charge)]
      ensures world.lost == old(world.lost) && world.next == old(world.next)
      ensures r.kind == Found ==> status == Closed
      ensures status == Resting <==> r.kind == LogLimited
      ensures status == Closed || status == Resting || Total() < budget * 1000
      ensures status == AflPending ==> aflRun == None
    {
      charge := SaveCharge(r);
      Conclude(r.kind, j);
    }

    method SaveInterruption(id: Id, requested: nat, elapsed: nat)
      requires At(InSession(id, requested, Current(Records()))) && elapsed <= requested * 1000
      modifies this`progress, this`world
      ensures At(Saved(true))
      ensures Total() == old(Total()) + elapsed
      ensures world.ledger == old(world.ledger) + [Addition(LibFuzzer(id), elapsed)]
      ensures world.lost == old(world.lost) && world.next == old(world.next)
    {
      var p := Current(Records());
      Write(Raise(elapsed));
      var session := Session(Some(id), false, true, requested * 1000, elapsed, None);
      progress := Some(p.(completed := p.completed + elapsed, sessions := p.sessions + [session]));
      Write(SaveProgress);
    }

    // Saves the time an interrupted session took.
    method ApplyInterruption(id: Id, requested: nat, elapsed: nat)
      requires At(InSession(id, requested, Current(Records()))) && elapsed <= requested * 1000
      modifies this
      ensures At(Idle) && active == None && status == Interrupted && run == old(run) && aflRun == old(aflRun)
      ensures Total() == old(Total()) + elapsed && WellKept(budget, Current(Records()), world.byHand)
      ensures world.ledger == old(world.ledger) + [Addition(LibFuzzer(id), elapsed)]
      ensures world.lost == old(world.lost) && world.next == old(world.next)
    {
      SaveInterruption(id, requested, elapsed);
      status, active := Interrupted, None;
      Write(SaveState(Interrupted));
      ReachableKept(budget, world);
    }

    // One call of the fuzzing stage. It adds at most one amount to the ledger, never loses any,
    // replays a complete record instead of fuzzing, and refuses only with nothing left to do.
    method Fuzz(id: Id, checkpoint: int, harness: bool, lowYield: bool, ending: Ending, j: Judgement) returns (r: Report)
      requires At(Idle) && Fuzzable(status) && id == world.next && checkpoint >= 1
      requires Remaining(budget, Total()) > 0 ==> ValidEnding(Min(Remaining(budget, Total()), checkpoint), ending)
      modifies this
      ensures At(Idle)
      ensures Total() == old(Total()) + Gain(r)
      ensures world.lost == old(world.lost)
      ensures old(world.ledger) <= world.ledger && |world.ledger| <= |old(world.ledger)| + 1
      ensures WellKept(budget, Current(Records()), world.byHand)
      ensures r.Scheduled? <==> harness
      ensures old(Replayable(Records())) && !harness ==> r.Accounted? && run == old(run) && world.next == old(world.next)
      ensures r.Refused? <==> !harness && !old(Replayable(Records())) && old(run) == None && Remaining(budget, old(Total())) == 0
      ensures r.Refused? ==> world == old(world)
      ensures r.Stopped? ==> status == Closed && old(run).Some?
      ensures r.Cut? ==> status == Interrupted && (ending.BadExited? || ending.Broke?)
      ensures r.Accounted? ==> status == Closed || status == Resting || Total() < budget * 1000
      ensures r.Accounted? && world.next > old(world.next) && ending.Finished? && (ending.kind == Passed || ending.kind == Restarted) ==>
                status == Closed || Remaining(budget, Total()) < Remaining(budget, old(Total()))
    {
      ReachableKept(budget, world);
      if harness {
        status := HarnessPending;
        Write(ScheduleHarness);
        return Scheduled;
      }
      if Replayable(Records()) {
        var charge := ReplaySession(j);
        return Accounted(charge);
      }
      var remaining := Remaining(budget, Total());
      if run.Some? && (lowYield || remaining == 0) {
        status, active := Closed, None;
        Write(Stop);
        return Stopped;
      }
      if remaining == 0 {
        return Refused;
      }
      var requested := Min(remaining, checkpoint);
      r := FuzzSession(id, requested, ending, j);
      ReachableKept(budget, world);
    }

    method ReplaySession(j: Judgement) returns (charge: nat)
      requires At(Idle) && Fuzzable(status) && Replayable(Records())
      modifies this
      ensures At(Idle) && run == old(run) && WellKept(budget, Current(Records()), world.byHand)
      ensures Total() == old(Total()) + charge
      ensures world.lost == old(world.lost) && world.next == old(world.next)
      ensures old(world.ledger) <= world.ledger && |world.ledger| <= |old(world.ledger)| + 1
      ensures status == Closed || status == Resting || Total() < budget * 1000
    {
      Write(Replay);
      charge := ApplyResult(run.value, j);
      ReachableKept(budget, world);
    }

    method FinishSession(id: Id, requested: nat, kind: Kind, accounted: nat, j: Judgement) returns (charge: nat)
      requires At(InSession(id, requested, Current(Records()))) && requested >= 1
      requires kind != BadExit && ValidResult(requested, kind, accounted)
      modifies this
      ensures At(Idle)
      ensures Total() == old(Total()) + charge
      ensures world.lost == old(world.lost) && world.next == old(world.next)
      ensures old(world.ledger) <= world.ledger && |world.ledger| <= |old(world.ledger)| + 1
      ensures status == Closed || status == Resting || Total() < budget * 1000
      ensures kind == Passed || kind == Restarted ==> status == Closed || Remaining(budget, Total()) < Remaining(budget, old(Total()))
    {
      StartedIsUncharged(budget, world);
      if kind == Passed || kind == Restarted {
        ChargeProgress(budget, Total(), accounted);
      }
      run := Some(RunRecord(id, requested, accounted, kind));
      Write(Finish(kind, accounted));
      charge := ApplyResult(run.value, j);
    }

    method FuzzSession(id: Id, requested: nat, ending: Ending, j: Judgement) returns (r: Report)
      requires At(Idle) && Fuzzable(status) && id == world.next && !Replayable(Records())
      requires 1 <= requested <= Remaining(budget, Total()) && ValidEnding(requested, ending)
      modifies this
      ensures At(Idle)
      ensures Total() == old(Total()) + Gain(r)
      ensures world.lost == old(world.lost) && world.next == id + 1
      ensures old(world.ledger) <= world.ledger && |world.ledger| <= |old(world.ledger)| + 1
      ensures if ending.Finished? then r.Accounted? else r == Cut(ending.elapsed) && status == Interrupted
      ensures r.Accounted? ==> status == Closed || status == Resting || Total() < budget * 1000
      ensures ending.Finished? && (ending.kind == Passed || ending.kind == Restarted) ==>
                status == Closed || Remaining(budget, Total()) < Remaining(budget, old(Total()))
    {
      status, active := Running, Some(id);
      Write(Start(requested));
      match ending {
        case Finished(kind, accounted) =>
          var charge := FinishSession(id, requested, kind, accounted, j);
          r := Accounted(charge);
        case BadExited(elapsed) =>
          run := Some(RunRecord(id, requested, requested * 1000, BadExit));
          Write(WriteBadRun);
          ApplyInterruption(id, requested, elapsed);
          r := Cut(elapsed);
        case Broke(elapsed) =>
          ApplyInterruption(id, requested, elapsed);
          r := Cut(elapsed);
      }
    }

    // Adds a lane that worked, unless the progress record marks it as counted.
    method SaveLane()
      requires At(AflEnded) && (progress.Some? || aflRun == Some(AflFailed))
      modifies this`progress, this`world
      ensures At(AflSaved) && aflRun.Some?
      ensures aflRun == Some(AflFailed) || old(Current(Records()).aflCounted) ==>
                progress == old(progress) && world.ledger == old(world.ledger)
      ensures aflRun.value.AflDone? ==> Charged(world.ledger, AflLane) && Current(Records()).aflCounted
      ensures old(Total()) <= Total()
      ensures status == AflRunning ==> Total() <= old(Total()) + Remaining(budget, old(Total())) * 1000
      ensures status == AflRunning && old(Charged(world.ledger, AflLane)) ==>
                progress == old(progress) && world.ledger == old(world.ledger)
      ensures Total() - old(Total()) == Sum(world.ledger) - Sum(old(world.ledger))
      ensures world.lost == old(world.lost) && world.byHand == old(world.byHand)
    {
      LaneIsCounted(budget, world);
      var p, r := Current(Records()), aflRun.value;
      if r.AflDone? && !p.aflCounted {
        var amount := Min(r.requested * 1000, r.elapsed);
        var session := Session(None, true, false, r.requested * 1000, r.elapsed, None);
        progress := Some(p.(completed := p.completed + amount, aflCounted := true, sessions := p.sessions + [session]));
        LedgerSnoc(world.ledger, Addition(AflLane, amount));
      }
      Write(SaveProgress);
    }

    method ApplyAfl(finding: bool, harness: bool)
      requires At(AflEnded) && (progress.Some? || aflRun == Some(AflFailed))
      modifies this
      ensures At(Idle) && run == old(run) && aflRun.Some? && aflRun == old(aflRun) && active == old(active)
      ensures aflRun == Some(AflFailed) || old(Current(Records()).aflCounted) ==>
                progress == old(progress) && world.ledger == old(world.ledger)
      ensures aflRun.value.AflDone? ==> Charged(world.ledger, AflLane) && Current(Records()).aflCounted
      ensures aflRun == Some(AflFailed) ==> status == Ready
      ensures aflRun.value.AflDone? && (finding || Total() >= budget * 1000) ==> status == Closed
      ensures old(Total()) <= Total()
      ensures old(status) == AflRunning ==> Total() <= old(Total()) + Remaining(budget, old(Total())) * 1000
      ensures old(status) == AflRunning && old(Charged(world.ledger, AflLane)) ==>
                progress == old(progress) && world.ledger == old(world.ledger)
      ensures Total() - old(Total()) == Sum(world.ledger) - Sum(old(world.ledger))
      ensures world.lost == old(world.lost) && world.byHand == old(world.byHand) && !AflDue(status)
    {
      SaveLane();
      ConcludeLane(finding, harness);
    }

    method ConcludeLane(finding: bool, harness: bool)
      requires At(AflSaved) && aflRun.Some?
      modifies this`status, this`world
      ensures At(Idle) && !AflDue(status)
      ensures aflRun == Some(AflFailed) ==> status == Ready
      ensures aflRun.value.AflDone? && (finding || Total() >= budget * 1000) ==> status == Closed
      ensures world.ledger == old(world.ledger) && world.lost == old(world.lost) && world.byHand == old(world.byHand)
    {
      status := if aflRun.value.AflFailed? then Ready
                else if finding || Total() >= budget * 1000 then Closed
                else if harness then HarnessPending
                else Ready;
      Write(SaveState(status));
    }

    // One call of the AFL lane, which looks only at the stage. It refuses without a stalled
    // progress record to start from, or to add to. The worker, which calls it only while the lane
    // is pending or running, has it on the ledger at most once and within the whole seconds left.
    method RunAfl(configured: int, stalled: bool, worked: bool, elapsed: nat, finding: bool, harness: bool)
      returns (refused: bool)
      requires At(Idle) && FuzzingStage(status)
      modifies this
      ensures At(Idle) && run == old(run) && (old(aflRun).Some? ==> aflRun == old(aflRun))
      ensures refused <==> if old(aflRun).None? then old(progress).None? || !stalled
                           else old(progress).None? && old(aflRun).value.AflDone?
      ensures refused ==> world == old(world)
      ensures !refused ==> aflRun.Some? && !AflDue(status) && (aflRun.value.AflDone? ==> Current(Records()).aflCounted)
      ensures old(aflRun).None? && !refused ==> (aflRun.value.AflDone? <==> worked && Remaining(budget, old(Total())) > 0)
      ensures !refused && (aflRun == Some(AflFailed) || old(Current(Records()).aflCounted)) ==>
                progress == old(progress) && world.ledger == old(world.ledger)
      ensures old(AflDue(status)) && old(Charged(world.ledger, AflLane)) ==>
                progress == old(progress) && world.ledger == old(world.ledger)
      ensures old(Total()) <= Total()
      ensures old(AflDue(status)) || old(aflRun).None? ==> Total() <= old(Total()) + Remaining(budget, old(Total())) * 1000
      ensures Total() - old(Total()) == Sum(world.ledger) - Sum(old(world.ledger))
      ensures world.lost == old(world.lost) && WellKept(budget, Current(Records()), world.byHand)
      ensures world.byHand ==> old(world.byHand) || (old(aflRun).Some? && !old(AflDue(status)))
    {
      ReachableKept(budget, world);
      LaneDue(budget, world);
      if aflRun.Some? {
        if progress.None? && aflRun.value.AflDone? {
          return true;
        }
        Write(ReplayAfl);
      } else {
        if progress.None? || !stalled {
          return true;
        }
        StartLane(configured, worked, elapsed);
      }
      ApplyAfl(finding, harness);
      ReachableKept(budget, world);
      refused := false;
    }

    method StartLane(configured: int, worked: bool, elapsed: nat)
      requires At(Idle) && FuzzingStage(status) && aflRun == None && progress.Some?
      modifies this`status, this`aflRun, this`world
      ensures At(AflEnded) && aflRun.Some? && status == AflRunning
      ensures aflRun.value.AflDone? <==> worked && Remaining(budget, Total()) > 0
      ensures world.ledger == old(world.ledger) && world.lost == old(world.lost) && world.byHand == old(world.byHand)
    {
      var remaining := Remaining(budget, Total());
      var limit := Min(Max(1, configured), remaining);
      status := AflRunning;
      Write(StartAfl(limit));
      if worked && remaining > 0 {
        aflRun := Some(AflDone(limit, elapsed));
        Write(FinishAfl(elapsed));
      } else {
        aflRun := Some(AflFailed);
        Write(FailAfl);
      }
    }

    // The archive in front of a rebuilt harness: nothing is left to replay, and the AFL lane may
    // not be counted again because its record stays.
    method ArchiveForRebuild()
      requires At(Idle) && Archivable(status)
      modifies this
      ensures At(Idle) && status == Gate && run == None && !Replayable(Records()) && WellKept(budget, Current(Records()), world.byHand)
      ensures Total() == old(Total()) && Current(Records()).last == old(Current(Records()).last)
      ensures Current(Records()).sessions == old(Current(Records()).sessions) && !Current(Records()).aflCounted
      ensures aflRun == old(aflRun) && world.ledger == old(world.ledger) && world.lost == old(world.lost)
    {
      MoveRecords();
      status := Gate;
      Write(SaveState(Gate));
      ReachableKept(budget, world);
    }

    method MoveRecords()
      requires At(Idle) && Archivable(status)
      modifies this`run, this`progress, this`world
      ensures At(Rebuilt) && run == None
      ensures Total() == old(Total()) && Current(Records()).last == old(Current(Records()).last)
      ensures Current(Records()).sessions == old(Current(Records()).sessions) && !Current(Records()).aflCounted
      ensures world.ledger == old(world.ledger) && world.lost == old(world.lost)
    {
      run := None;
      Write(MoveRun);
      if progress.Some? {
        var continuation := progress.value.(aflCounted := false);
        progress := None;
        Write(MoveProgress);
        progress := Some(continuation);
        Write(WriteContinuation);
      } else {
        Write(MoveProgress);
      }
    }
  }
}
