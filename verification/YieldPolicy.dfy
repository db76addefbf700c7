// When a fuzzing campaign gives up its target: coverage stayed shallow, or stopped growing.
// Times are milliseconds, the configured limits whole seconds.
module YieldPolicy {
  import opened Basics
  import A = Accounting

  datatype Metrics = Metrics(edges: nat, features: nat)

  datatype Observation = Observation(session: A.Session, metrics: Metrics)

  datatype Config = Config(enabled: bool, minimumSeconds: int, minimumEdges: int, edgeGrowth: int,
                           featureGrowth: int, stagnationSeconds: int)

  datatype Reason = ShallowReach | CoverageStagnation

  datatype Decision = Decision(reason: Reason, best: Metrics, trailing: nat)

  // ---------- what is measured ----------

  // How long a session counts for here: what was charged, else what an interrupted session ran,
  // else what was requested.
  function Duration(s: A.Session): nat {
    if s.accounted.Some? then s.accounted.value
    else if s.interrupted then s.elapsed
    else s.requested
  }

  function Durations(os: seq<Observation>, n: nat): nat
    requires n <= |os|
  {
    if n == 0 then 0 else Durations(os, n - 1) + Duration(os[n - 1].session)
  }

  // A session that beats the baseline and every session before it, in edges or in features.
  ghost predicate SetsRecord(base: Metrics, os: seq<Observation>, i: nat)
    requires i < |os|
  {
    var m := os[i].metrics;
    || (m.edges > base.edges && forall j :: 0 <= j < i ==> m.edges > os[j].metrics.edges)
    || (m.features > base.features && forall j :: 0 <= j < i ==> m.features > os[j].metrics.features)
  }

  // How many sessions there were up to the last record.
  ghost function LastRecord(base: Metrics, os: seq<Observation>, n: nat): (last: nat)
    requires n <= |os|
    ensures last <= n
  {
    if n == 0 then 0 else if SetsRecord(base, os, n - 1) then n else LastRecord(base, os, n - 1)
  }

  ghost predicate IsBest(base: Metrics, os: seq<Observation>, n: nat, best: Metrics)
    requires n <= |os|
  {
    && best.edges >= base.edges && best.features >= base.features
    && (forall j :: 0 <= j < n ==> best.edges >= os[j].metrics.edges && best.features >= os[j].metrics.features)
    && (best.edges == base.edges || exists j :: 0 <= j < n && os[j].metrics.edges == best.edges)
    && (best.features == base.features || exists j :: 0 <= j < n && os[j].metrics.features == best.features)
  }

  // The time since the last record, as far as the completed total covers it.
  ghost function Trailing(base: Metrics, os: seq<Observation>, completed: nat): nat {
    Max(0, completed - Durations(os, LastRecord(base, os, |os|)))
  }

  function Shallow(c: Config, base: Metrics, best: Metrics): bool {
    && best.edges < Max(0, c.minimumEdges)
    && best.edges - base.edges < Max(0, c.edgeGrowth)
    && best.features - base.features < Max(0, c.featureGrowth)
  }

  function Verdict(c: Config, base: Metrics, best: Metrics, completed: nat, trailing: nat): Option<Reason> {
    var minimum := Max(0, c.minimumSeconds);
    if !c.enabled || completed < minimum * 1000 then None
    else if Shallow(c, base, best) then Some(ShallowReach)
    else if trailing >= Max(minimum, c.stagnationSeconds) * 1000 then Some(CoverageStagnation)
    else None
  }

  // The decision the campaign deserves: the best metrics are determined by the sessions.
  ghost predicate Decides(c: Config, base: Metrics, os: seq<Observation>, completed: nat, decision: Option<Decision>) {
    exists best ::
      && IsBest(base, os, |os|, best)
      && var reason := Verdict(c, base, best, completed, Trailing(base, os, completed));
         decision == if reason.None? then None else Some(Decision(reason.value, best, Trailing(base, os, completed)))
  }

  method EvaluateCampaignYield(c: Config, base: Metrics, os: seq<Observation>, completed: nat)
    returns (decision: Option<Decision>)
    ensures Decides(c, base, os, completed, decision)
  {
    if !c.enabled || completed < Max(0, c.minimumSeconds) * 1000 {
      ghost var best := BestExists(base, os, |os|);
      return None;
    }
    var best, accounted, advanced := base, 0, 0;
    for n := 0 to |os|
      invariant IsBest(base, os, n, best)
      invariant accounted == Durations(os, n)
      invariant advanced == Min(completed, Durations(os, LastRecord(base, os, n)))
    {
      var m := os[n].metrics;
      accounted := accounted + Duration(os[n].session);
      RecordBeatsBest(base, os, n, best);
      if m.edges > best.edges || m.features > best.features {
        advanced := Min(completed, accounted);
        best := Metrics(Max(best.edges, m.edges), Max(best.features, m.features));
      }
    }
    var trailing := Max(0, completed - advanced);
    if Shallow(c, base, best) {
      return Some(Decision(ShallowReach, best, trailing));
    }
    if trailing >= Max(Max(0, c.minimumSeconds), c.stagnationSeconds) * 1000 {
      return Some(Decision(CoverageStagnation, best, trailing));
    }
    decision := None;
  }

  lemma RecordBeatsBest(base: Metrics, os: seq<Observation>, n: nat, best: Metrics)
    requires n < |os| && IsBest(base, os, n, best)
    ensures var m := os[n].metrics;
            SetsRecord(base, os, n) <==> m.edges > best.edges || m.features > best.features
    ensures var m := os[n].metrics;
            IsBest(base, os, n + 1, Metrics(Max(best.edges, m.edges), Max(best.features, m.features)))
  {
    var m := os[n].metrics;
    var after := Metrics(Max(best.edges, m.edges), Max(best.features, m.features));
    assert after.edges == m.edges || after.edges == best.edges;
    assert after.features == m.features || after.features == best.features;
  }

  lemma {:induction false} BestExists(base: Metrics, os: seq<Observation>, n: nat) returns (best: Metrics)
    requires n <= |os|
    ensures IsBest(base, os, n, best)
  {
    if n == 0 {
      best := base;
    } else {
      var before := BestExists(base, os, n - 1);
      RecordBeatsBest(base, os, n - 1, before);
      var m := os[n - 1].metrics;
      best := Metrics(Max(before.edges, m.edges), Max(before.features, m.features));
    }
  }

  // The decision is a function of the campaign.
  lemma DecisionIsUnique(c: Config, base: Metrics, os: seq<Observation>, completed: nat, a: Option<Decision>, b: Option<Decision>)
    requires Decides(c, base, os, completed, a) && Decides(c, base, os, completed, b)
    ensures a == b
  {
  }

  // ---------- appending sessions ----------

  ghost predicate NoRecord(base: Metrics, os: seq<Observation>, from: nat) {
    forall i :: from <= i < |os| ==> !SetsRecord(base, os, i)
  }

  lemma {:induction false} DurationsPrefix(os: seq<Observation>, more: seq<Observation>, n: nat)
    requires n <= |os|
    ensures Durations(os + more, n) == Durations(os, n)
  {
    if n > 0 {
      DurationsPrefix(os, more, n - 1);
    }
  }

  lemma {:induction false} LastRecordPrefix(base: Metrics, os: seq<Observation>, more: seq<Observation>, n: nat)
    requires n <= |os|
    ensures LastRecord(base, os + more, n) == LastRecord(base, os, n)
  {
    if n > 0 {
      LastRecordPrefix(base, os, more, n - 1);
      SetsRecordPrefix(base, os, more, n - 1);
    }
  }

  lemma SetsRecordPrefix(base: Metrics, os: seq<Observation>, more: seq<Observation>, i: nat)
    requires i < |os|
    ensures SetsRecord(base, os + more, i) <==> SetsRecord(base, os, i)
  {
    assert forall j :: 0 <= j < |os| ==> (os + more)[j] == os[j];
  }

  lemma {:induction false} LastRecordSkips(base: Metrics, os: seq<Observation>, from: nat, n: nat)
    requires from <= n <= |os| && NoRecord(base, os, from)
    ensures LastRecord(base, os, n) == LastRecord(base, os, from)
    decreases n
  {
    if from < n {
      LastRecordSkips(base, os, from, n - 1);
    }
  }

  // Sessions that set no record leave the time of the last one where it was.
  lemma AppendKeepsAdvance(base: Metrics, os: seq<Observation>, more: seq<Observation>)
    requires NoRecord(base, os + more, |os|)
    ensures Durations(os + more, LastRecord(base, os + more, |os + more|)) == Durations(os, LastRecord(base, os, |os|))
  {
    LastRecordSkips(base, os + more, |os|, |os + more|);
    LastRecordPrefix(base, os, more, |os|);
    DurationsPrefix(os, more, LastRecord(base, os, |os|));
  }

  // When the durations add up to the completed total, the trailing time is the total duration of
  // the sessions after the last record, and one more session without a record raises it by
  // exactly its duration.
  lemma TrailingIsTimeSinceRecord(base: Metrics, os: seq<Observation>, o: Observation)
    requires NoRecord(base, os + [o], |os|)
    ensures var completed := Durations(os, |os|);
            && Trailing(base, os, completed) == Durations(os, |os|) - Durations(os, LastRecord(base, os, |os|))
            && Trailing(base, os + [o], completed + Duration(o.session)) == Trailing(base, os, completed) + Duration(o.session)
  {
    AppendKeepsAdvance(base, os, [o]);
    DurationsGrow(os, LastRecord(base, os, |os|), |os|);
  }

  lemma {:induction false} DurationsGrow(os: seq<Observation>, a: nat, b: nat)
    requires a <= b <= |os|
    ensures Durations(os, a) <= Durations(os, b)
    decreases b
  {
    if a < b {
      DurationsGrow(os, a, b - 1);
    }
  }

  lemma {:induction false} BestSkips(base: Metrics, os: seq<Observation>, from: nat, n: nat, best: Metrics)
    requires from <= n <= |os| && NoRecord(base, os, from) && IsBest(base, os, from, best)
    ensures IsBest(base, os, n, best)
    decreases n
  {
    if from < n {
      BestSkips(base, os, from, n - 1, best);
      RecordBeatsBest(base, os, n - 1, best);
    }
  }

  // A verdict stands until a session sets a new record, however much time is added.
  lemma VerdictStands(c: Config, base: Metrics, os: seq<Observation>, more: seq<Observation>,
                      completed: nat, later: nat, d: Decision, e: Option<Decision>)
    requires completed <= later && NoRecord(base, os + more, |os|)
    requires Decides(c, base, os, completed, Some(d)) && Decides(c, base, os + more, later, e)
    ensures e.Some? && e.value.reason == d.reason && e.value.best == d.best && e.value.trailing >= d.trailing
  {
    AppendKeepsAdvance(base, os, more);
    BestOfPrefix(base, os, more, d.best);
    BestSkips(base, os + more, |os|, |os + more|, d.best);
  }

  lemma BestOfPrefix(base: Metrics, os: seq<Observation>, more: seq<Observation>, best: Metrics)
    requires IsBest(base, os, |os|, best)
    ensures IsBest(base, os + more, |os|, best)
  {
    assert forall j :: 0 <= j < |os| ==> (os + more)[j] == os[j];
  }

  // Enough time without a record always ends in a verdict.
  lemma StagnationIsCaught(c: Config, base: Metrics, os: seq<Observation>, from: nat, e: Option<Decision>)
    requires c.enabled && from <= |os| && NoRecord(base, os, from)
    requires Durations(os, |os|) - Durations(os, from) >= Max(Max(0, c.minimumSeconds), c.stagnationSeconds) * 1000
    requires Decides(c, base, os, Durations(os, |os|), e)
    ensures e.Some?
  {
    LastRecordSkips(base, os, from, |os|);
    DurationsGrow(os, LastRecord(base, os, from), from);
  }

  // ---------- durations and the completed total ----------

  function Sessions(os: seq<Observation>): seq<A.Session> {
    seq(|os|, i requires 0 <= i < |os| => os[i].session)
  }

  // A session that was neither charged nor interrupted, and ended before its requested time.
  predicate EndedEarly(s: A.Session) {
    s.accounted.None? && !s.interrupted && s.elapsed < s.requested
  }

  // The durations add up to what the sessions contributed to the completed total exactly when no
  // AFL session ended early: such a session counts here for all it requested.
  lemma {:induction false} DurationsMatchTotal(os: seq<Observation>)
    ensures Durations(os, |os|) >= A.Contributions(Sessions(os))
    ensures Durations(os, |os|) == A.Contributions(Sessions(os)) <==> forall o :: o in os ==> !EndedEarly(o.session)
  {
    if os != [] {
      var front, last := os[..|os| - 1], os[|os| - 1];
      DurationsMatchTotal(front);
      assert os == front + [last];
      DurationsPrefix(front, [last], |front|);
      assert Sessions(os) == Sessions(front) + [last.session];
      A.SessionsSnoc(Sessions(front), last.session);
      assert forall o :: o in os <==> o in front || o == last;
    }
  }

  // ---------- the verdict that early ends delay ----------

  // The time the sessions after the last record really took.
  ghost function TimeSinceRecord(base: Metrics, os: seq<Observation>): int {
    A.Contributions(Sessions(os)) - A.Contributions(Sessions(os[..LastRecord(base, os, |os|)]))
  }

  lemma {:induction false} ContributionsGrow(os: seq<Observation>, n: nat)
    requires n <= |os|
    ensures A.Contributions(Sessions(os[..n])) <= A.Contributions(Sessions(os))
    decreases |os|
  {
    if n < |os| {
      var front := os[..|os| - 1];
      ContributionsGrow(front, n);
      assert front[..n] == os[..n];
      A.SessionsSnoc(Sessions(front), os[|os| - 1].session);
      assert Sessions(os) == Sessions(front) + [os[|os| - 1].session];
    } else {
      assert os[..n] == os;
    }
  }

  // Measured against the total the sessions contributed, the trailing time never exceeds the time
  // since the last record, and equals it exactly when no AFL session up to that record ended early
  // or no time has passed since.
  lemma TrailingExactly(base: Metrics, os: seq<Observation>)
    ensures var trailing := Trailing(base, os, A.Contributions(Sessions(os)));
            && trailing <= TimeSinceRecord(base, os)
            && (trailing == TimeSinceRecord(base, os) <==>
                  (TimeSinceRecord(base, os) == 0 || forall o :: o in os[..LastRecord(base, os, |os|)] ==> !EndedEarly(o.session)))
  {
    var last := LastRecord(base, os, |os|);
    assert os == os[..last] + os[last..];
    DurationsPrefix(os[..last], os[last..], last);
    DurationsMatchTotal(os[..last]);
    ContributionsGrow(os, last);
  }

  // The decision differs from the one the real time deserves exactly when a deep enough campaign
  // has been without a record for the configured time, but not by the trailing time.
  lemma VerdictDelayedExactly(c: Config, base: Metrics, os: seq<Observation>, best: Metrics)
    ensures var completed := A.Contributions(Sessions(os));
            var trailing, limit := Trailing(base, os, completed), Max(Max(0, c.minimumSeconds), c.stagnationSeconds) * 1000;
            TimeSinceRecord(base, os) >= 0 &&
            (Verdict(c, base, best, completed, trailing) != Verdict(c, base, best, completed, TimeSinceRecord(base, os)) <==>
               (c.enabled && completed >= Max(0, c.minimumSeconds) * 1000 && !Shallow(c, base, best) &&
                trailing < limit <= TimeSinceRecord(base, os)))
  {
    TrailingExactly(base, os);
  }

  // An AFL session that asked for an hour, set a record and ended after a second; then ten
  // seconds without another record.
  const EARLY := Observation(A.Session(None, true, false, 3_600_000, 1_000, None), Metrics(1, 1))
  const IDLE := Observation(A.Session(Some(0), false, false, 10_000, 10_000, Some(10_000)), Metrics(1, 1))

  // With a limit of ten seconds that campaign is not stopped, and should be.
  lemma EarlyEndHidesStagnation()
    ensures var c, base, os := Config(true, 0, 0, 0, 0, 10), Metrics(0, 0), [EARLY, IDLE];
            && Decides(c, base, os, A.Contributions(Sessions(os)), None)
            && TimeSinceRecord(base, os) == 10_000
            && Verdict(c, base, Metrics(1, 1), A.Contributions(Sessions(os)), 10_000) == Some(CoverageStagnation)
  {
    var c, base, os := Config(true, 0, 0, 0, 0, 10), Metrics(0, 0), [EARLY, IDLE];
    assert Sessions(os) == Sessions([EARLY]) + [IDLE.session] && Sessions([EARLY]) == [] + [EARLY.session];
    A.SessionsSnoc(Sessions([EARLY]), IDLE.session);
    A.SessionsSnoc([], EARLY.session);
    assert SetsRecord(base, os, 0) && !SetsRecord(base, os, 1);
    assert LastRecord(base, os, 1) == 1 && LastRecord(base, os, 2) == 1 && os[..1] == [EARLY];
    assert Durations(os, 1) == 3_600_000;
    assert os[0].metrics == Metrics(1, 1) && IsBest(base, os, 2, Metrics(1, 1));
  }
}
