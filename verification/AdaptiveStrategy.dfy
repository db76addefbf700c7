// The record of what was tried on a campaign whose coverage stalled. An entry's id is a hash of
// its strategy and its place in the history; hashes are taken as injective.
module AdaptiveStrategy {
  import opened Basics

  datatype Strategy = ValueProfile | DictionarySeeds | MutationStack | FollowupHarness

  datatype Status = Pending | Active | Succeeded | Ineffective | Scheduled | Failed

  datatype Id = Id(strategy: Strategy, place: nat)

  // Seconds of evaluation, and the completed milliseconds when the strategy went active.
  datatype Entry = Entry(id: Id, strategy: Strategy, status: Status, evaluation: nat, baseline: nat)

  datatype Record = Record(history: seq<Entry>, current: Option<Id>)

  datatype Operation =
    | Queue(requested: Option<Strategy>, evaluation: int)
    | Activate(completed: nat)
    | Evaluate(total: nat, advanced: bool)
    | Complete(scheduled: bool)

  predicate Open(e: Entry) {
    e.status.Pending? || e.status.Active?
  }

  // ---------- the record as a value ----------

  // The newest entry with the current id, as a position.
  function Current(r: Record, n: nat): (at: Option<nat>)
    requires n <= |r.history|
    ensures at.Some? ==> at.value < n
  {
    if n == 0 || r.current.None? then None
    else if r.history[n - 1].id == r.current.value then Some(n - 1)
    else Current(r, n - 1)
  }

  predicate Attempted(r: Record, s: Strategy) {
    exists i :: 0 <= i < |r.history| && r.history[i].strategy == s
  }

  function NewEntry(r: Record, s: Strategy, evaluation: int): Entry {
    Entry(Id(s, |r.history|), s, Pending, Max(300, evaluation), 0)
  }

  function Activated(e: Entry, completed: nat): Entry {
    if e.strategy != FollowupHarness && e.status.Pending? then e.(status := Active, baseline := completed) else e
  }

  function Evaluated(e: Entry, total: nat, advanced: bool): Entry {
    if !e.status.Active? then e
    else if advanced then e.(status := Succeeded)
    else if Max(0, total - e.baseline) >= e.evaluation * 1000 then e.(status := Ineffective)
    else e
  }

  function Completed(e: Entry, scheduled: bool): Entry {
    if e.strategy == FollowupHarness then e.(status := if scheduled then Scheduled else Failed) else e
  }

  function Apply(r: Record, o: Operation): Record {
    var at := Current(r, |r.history|);
    match o
    case Queue(requested, evaluation) =>
      if requested.None? || (at.Some? && Open(r.history[at.value])) || Attempted(r, requested.value) then r
      else
        var e := NewEntry(r, requested.value, evaluation);
        Record(r.history + [e], Some(e.id))
    case Activate(completed) =>
      if at.None? then r else r.(history := r.history[at.value := Activated(r.history[at.value], completed)])
    case Evaluate(total, advanced) =>
      if at.None? then r else r.(history := r.history[at.value := Evaluated(r.history[at.value], total, advanced)])
    case Complete(scheduled) =>
      if at.None? then r else r.(history := r.history[at.value := Completed(r.history[at.value], scheduled)])
  }

  // ---------- what every record keeps ----------

  predicate Inv(r: Record) {
    && (forall i :: 0 <= i < |r.history| ==> r.history[i].id == Id(r.history[i].strategy, i))
    && (forall i, j :: 0 <= i < j < |r.history| ==> r.history[i].strategy != r.history[j].strategy)
    && (forall i :: 0 <= i < |r.history| - 1 ==> !Open(r.history[i]))
    && r.current == (if r.history == [] then None else Some(r.history[|r.history| - 1].id))
    && forall i :: 0 <= i < |r.history| ==> r.history[i].evaluation >= 300
  }

  lemma CurrentIsLast(r: Record)
    requires Inv(r)
    ensures Current(r, |r.history|) == if r.history == [] then None else Some(|r.history| - 1)
  {
  }

  // The operations rewrite the newest entry or add one; the past is fixed.
  lemma ApplyKeepsInv(r: Record, o: Operation)
    requires Inv(r)
    ensures Inv(Apply(r, o))
    ensures |r.history| <= |Apply(r, o).history| <= |r.history| + 1
    ensures forall i :: 0 <= i < |r.history| - 1 ==> Apply(r, o).history[i] == r.history[i]
    ensures |Apply(r, o).history| > |r.history| ==> Apply(r, o).history[..|r.history|] == r.history
  {
    CurrentIsLast(r);
  }

  function Replayed(os: seq<Operation>): Record {
    if os == [] then Record([], None) else Apply(Replayed(os[..|os| - 1]), os[|os| - 1])
  }

  lemma {:induction false} ReachableInv(os: seq<Operation>)
    ensures Inv(Replayed(os))
  {
    if os != [] {
      ReachableInv(os[..|os| - 1]);
      ApplyKeepsInv(Replayed(os[..|os| - 1]), os[|os| - 1]);
    }
  }

  function Tried(h: seq<Entry>): set<Strategy> {
    set i | 0 <= i < |h| :: h[i].strategy
  }

  lemma {:induction false} TriedCount(h: seq<Entry>)
    requires forall i, j :: 0 <= i < j < |h| ==> h[i].strategy != h[j].strategy
    ensures |Tried(h)| == |h| <= 4
  {
    if h != [] {
      var front := h[..|h| - 1];
      TriedCount(front);
      assert Tried(h) == Tried(front) + {h[|h| - 1].strategy};
    }
    StrategiesAreFour(Tried(h));
  }

  lemma StrategiesAreFour(s: set<Strategy>)
    ensures |s| <= 4
    ensures |s| == 4 ==> s == {ValueProfile, DictionarySeeds, MutationStack, FollowupHarness}
  {
    var all := {ValueProfile, DictionarySeeds, MutationStack, FollowupHarness};
    assert |all| == 4;
    assert s <= all by {
      forall x | x in s
        ensures x in all
      {
        assert x == ValueProfile || x == DictionarySeeds || x == MutationStack || x == FollowupHarness;
      }
    }
    assert all == s + (all - s) && |all| == |s| + |all - s|;
  }

  // Whatever the order of operations: no strategy twice, at most four entries, and at most one
  // open entry, which is the current and newest one.
  lemma StrategiesInAnyOrder(os: seq<Operation>, i: nat, j: nat)
    requires i < |Replayed(os).history| && j < |Replayed(os).history|
    ensures var r := Replayed(os);
            && |r.history| <= 4
            && (r.history[i].strategy == r.history[j].strategy ==> i == j)
            && (Open(r.history[i]) ==> i == |r.history| - 1 && Current(r, |r.history|) == Some(i))
  {
    ReachableInv(os);
    TriedCount(Replayed(os).history);
    CurrentIsLast(Replayed(os));
  }

  // A strategy once queued stays in the record at its place, so it is never tried again; an
  // entry that is not the newest never changes.
  lemma {:induction false} PastIsFixed(os: seq<Operation>, more: seq<Operation>)
    ensures var r, s := Replayed(os), Replayed(os + more);
            && |r.history| <= |s.history|
            && (forall i :: 0 <= i < |r.history| ==> s.history[i].strategy == r.history[i].strategy)
            && forall i :: 0 <= i < |r.history| - 1 ==> s.history[i] == r.history[i]
  {
    if more == [] {
      assert os + more == os;
    } else {
      var front := more[..|more| - 1];
      PastIsFixed(os, front);
      assert (os + more)[..|os + more| - 1] == os + front;
      ReachableInv(os + front);
      ApplyKeepsInv(Replayed(os + front), more[|more| - 1]);
      CurrentIsLast(Replayed(os + front));
    }
  }

  // With four entries the record is complete: nothing can be queued any more.
  lemma FourthIsLast(os: seq<Operation>, requested: Strategy, evaluation: int)
    requires |Replayed(os).history| == 4
    ensures Apply(Replayed(os), Queue(Some(requested), evaluation)) == Replayed(os)
  {
    var r := Replayed(os);
    ReachableInv(os);
    TriedCount(r.history);
    StrategiesAreFour(Tried(r.history));
    assert requested in Tried(r.history);
  }

  // ---------- the record as the runner updates it ----------

  // The newest entry after an evaluation; the others are as they were.
  predicate Judged(before: seq<Entry>, after: seq<Entry>, total: nat, advanced: bool)
    requires |before| == |after| > 0
  {
    var last := |before| - 1;
    var b, a := before[last], after[last];
    var due := total - b.baseline >= b.evaluation * 1000;
    && after[..last] == before[..last]
    && a.(status := b.status) == b
    && (a.status.Succeeded? <==> b.status.Succeeded? || (b.status.Active? && advanced))
    && (a.status.Ineffective? <==> b.status.Ineffective? || (b.status.Active? && !advanced && due))
    && (a.status.Active? <==> b.status.Active? && !advanced && !due)
    && (!b.status.Active? ==> a == b)
  }

  class StrategyFile {
    var history: seq<Entry>
    var current: Option<Id>

    constructor ()
      ensures Saved() == Record([], None)
    {
      history, current := [], None;
    }

    function Saved(): Record
      reads this
    {
      Record(history, current)
    }

    method CurrentStrategy() returns (at: Option<nat>)
      ensures at == Current(Saved(), |history|)
      ensures at.Some? ==> at.value < |history|
    {
      var n := |history|;
      while n > 0
        invariant 0 <= n <= |history| && Current(Saved(), |history|) == Current(Saved(), n)
      {
        if current.Some? && history[n - 1].id == current.value {
          return Some(n - 1);
        }
        n := n - 1;
      }
      at := None;
    }

    // Queues a strategy unless one is open. Returns the open or the new entry; none when the
    // request is refused.
    method QueueStrategy(requested: Option<Strategy>, evaluation: int) returns (entry: Option<Entry>)
      modifies this
      ensures Saved() == Apply(old(Saved()), Queue(requested, evaluation))
      ensures entry.Some? ==> old(Inv(Saved())) ==> entry.value in history && Open(entry.value)
      ensures requested.Some? && !old(Attempted(Saved(), requested.value)) ==> entry.Some?
    {
      if requested.None? {
        return None;
      }
      var at := CurrentStrategy();
      if at.Some? && Open(history[at.value]) {
        return Some(history[at.value]);
      }
      if Attempted(Saved(), requested.value) {
        return None;
      }
      var e := NewEntry(Saved(), requested.value, evaluation);
      history, current := history + [e], Some(e.id);
      entry := Some(e);
    }

    method ActivateRuntimeStrategy(completed: nat)
      modifies this`history
      ensures Saved() == Apply(old(Saved()), Activate(completed))
    {
      var at := CurrentStrategy();
      if at.Some? {
        var e := history[at.value];
        if e.strategy != FollowupHarness && e.status.Pending? {
          history := history[at.value := e.(status := Active, baseline := completed)];
        }
      }
    }

    // Judges the newest entry: new coverage makes an active one succeed, a full evaluation window
    // without any ends it, and nothing else changes.
    method EvaluateRuntimeStrategy(total: nat, advanced: bool)
      modifies this`history
      ensures Saved() == Apply(old(Saved()), Evaluate(total, advanced))
      ensures |history| == |old(history)|
      ensures old(Inv(Saved())) && history != [] ==> Judged(old(history), history, total, advanced)
    {
      if Inv(Saved()) {
        CurrentIsLast(Saved());
      }
      var at := CurrentStrategy();
      if at.Some? && history[at.value].status.Active? {
        var e := history[at.value];
        var elapsed := Max(0, total - e.baseline);
        if advanced {
          history := history[at.value := e.(status := Succeeded)];
        } else if elapsed >= e.evaluation * 1000 {
          history := history[at.value := e.(status := Ineffective)];
        }
      }
    }

    method CompleteHarnessStrategy(scheduled: bool)
      modifies this`history
      ensures Saved() == Apply(old(Saved()), Complete(scheduled))
    {
      var at := CurrentStrategy();
      if at.Some? && history[at.value].strategy == FollowupHarness {
        history := history[at.value := history[at.value].(status := if scheduled then Scheduled else Failed)];
      }
    }

    // What the fuzzing stage does with the record before a session. A pending follow-up harness
    // is settled; when one was scheduled the session does not start.
    method BeforeSession(candidate: bool, completed: nat) returns (harness: bool)
      requires Inv(Saved())
      modifies this`history
      ensures Inv(Saved()) && |history| == |old(history)|
      ensures harness <==> candidate && old(history != [] && history[|history| - 1].status.Pending? &&
                                            history[|history| - 1].strategy == FollowupHarness)
      ensures history != [] && !harness ==> !history[|history| - 1].status.Pending?
    {
      CurrentIsLast(Saved());
      var at := CurrentStrategy();
      harness := false;
      if at.Some? && history[at.value].status.Pending? && history[at.value].strategy == FollowupHarness {
        ApplyKeepsInv(Saved(), Complete(candidate));
        CompleteHarnessStrategy(candidate);
        if candidate {
          return true;
        }
      }
      CurrentIsLast(Saved());
      ApplyKeepsInv(Saved(), Activate(completed));
      ActivateRuntimeStrategy(completed);
    }
  }
}
