// Which repositories rest after repeated failures or a recent success, and the two passes that
// finish queued jobs: those of resting repositories, and those of a repository that another
// saved job already selected. Times are whole seconds.
module Cooldown {
  import opened Basics

  const OFFLINE := "offline_external_dependency"

  // What a job's last status means here. The text is kept because ties are ordered by it.
  datatype Kind = Succeeded | Failed | CooldownSkip | DuplicateSkip | Queued | OtherKind

  function KindOf(text: string): Kind {
    if text == "exhausted" || text == "ready_for_human" then Succeeded
    else if text == "skipped_after_recovery" || text == "unsupported_integration" then Failed
    else if text == "skipped_repository_cooldown" then CooldownSkip
    else if text == "skipped_previously_attempted" then DuplicateSkip
    else if text == "queued" then Queued
    else OtherKind
  }

  datatype Status = Status(kind: Kind, text: string)

  function StatusOf(text: string): Status {
    Status(KindOf(text), text)
  }

  // ---------- the order of a history ----------

  predicate Less(a: string, b: string) {
    b != [] && (a == [] || a[0] < b[0] || (a[0] == b[0] && Less(a[1..], b[1..])))
  }

  lemma {:induction false} LessIsTotal(a: string, b: string, c: string)
    ensures !Less(a, b) && !Less(b, c) ==> !Less(a, c)
    ensures Less(a, b) || Less(b, a) || a == b
    ensures !(Less(a, b) && Less(b, a)) && !Less(a, a)
  {
    if a != [] && b != [] && c != [] {
      LessIsTotal(a[1..], b[1..], c[1..]);
    } else if a != [] && b != [] {
      LessIsTotal(a[1..], b[1..], []);
    } else if a != [] {
      LessIsTotal(a[1..], [], []);
    }
    if a != [] && b != [] && a[0] == b[0] && a[1..] == b[1..] {
      assert a == [a[0]] + a[1..] && b == [b[0]] + b[1..];
    }
  }

  datatype Entry = Entry(time: int, status: Status, job: string, reason: string)

  predicate Older(a: Entry, b: Entry) {
    if a.time != b.time then a.time < b.time
    else if a.status.text != b.status.text then Less(a.status.text, b.status.text)
    else if a.job != b.job then Less(a.job, b.job)
    else Less(a.reason, b.reason)
  }

  lemma OlderIsTotal(a: Entry, b: Entry, c: Entry)
    ensures !Older(a, b) && !Older(b, c) ==> !Older(a, c)
    ensures Older(a, b) ==> !Older(b, a)
  {
    LessIsTotal(a.status.text, b.status.text, c.status.text);
    LessIsTotal(a.job, b.job, c.job);
    LessIsTotal(a.reason, b.reason, c.reason);
    LessIsTotal(b.status.text, c.status.text, a.status.text);
    LessIsTotal(b.job, c.job, a.job);
    LessIsTotal(a.status.text, c.status.text, b.status.text);
    LessIsTotal(a.job, c.job, b.job);
  }

  predicate NewestFirst(s: seq<Entry>) {
    forall i, j :: 0 <= i < j < |s| ==> !Older(s[i], s[j])
  }

  function Insert(e: Entry, s: seq<Entry>): seq<Entry> {
    if s != [] && Older(e, s[0]) then [s[0]] + Insert(e, s[1..]) else [e] + s
  }

  function Sorted(h: seq<Entry>): seq<Entry> {
    if h == [] then [] else Insert(h[|h| - 1], Sorted(h[..|h| - 1]))
  }

  lemma {:induction false} InsertMembers(e: Entry, s: seq<Entry>)
    ensures forall x :: x in Insert(e, s) <==> x == e || x in s
  {
    if s != [] {
      InsertMembers(e, s[1..]);
      assert s == [s[0]] + s[1..];
    }
  }

  lemma {:induction false} InsertKeepsOrder(e: Entry, s: seq<Entry>)
    requires NewestFirst(s)
    ensures NewestFirst(Insert(e, s))
  {
    if s != [] && Older(e, s[0]) {
      InsertKeepsOrder(e, s[1..]);
      InsertMembers(e, s[1..]);
      OlderIsTotal(e, s[0], e);
      assert forall x :: x in s[1..] ==> !Older(s[0], x);
      assert forall x :: x in Insert(e, s[1..]) ==> !Older(s[0], x);
    } else {
      forall j | 0 <= j < |s|
        ensures !Older(e, s[j])
      {
        OlderIsTotal(e, s[0], s[j]);
      }
    }
  }

  lemma {:induction false} SortedIsOrdered(h: seq<Entry>)
    ensures NewestFirst(Sorted(h))
  {
    if h != [] {
      SortedIsOrdered(h[..|h| - 1]);
      InsertKeepsOrder(h[|h| - 1], Sorted(h[..|h| - 1]));
    }
  }

  // ---------- the failure streak ----------

  predicate Success(e: Entry) {
    e.status.kind.Succeeded?
  }

  predicate Failure(e: Entry) {
    e.status.kind.Failed?
  }

  predicate Skip(e: Entry) {
    e.status.kind.CooldownSkip?
  }

  // The failures before the first job that ended any other way; jobs skipped because the
  // repository was already resting do not count either way.
  function Streak(s: seq<Entry>): seq<Entry> {
    if s == [] || Success(s[0]) then []
    else if Failure(s[0]) then [s[0]] + Streak(s[1..])
    else if Skip(s[0]) then Streak(s[1..])
    else []
  }

  method Consecutive(h: seq<Entry>) returns (consecutive: seq<Entry>)
    ensures consecutive == Streak(Sorted(h))
  {
    consecutive := [];
    var s := Sorted(h);
    var n := 0;
    while n < |s|
      invariant n <= |s|
      invariant consecutive + Streak(s[n..]) == Streak(s)
    {
      assert s[n..][0] == s[n] && s[n..][1..] == s[n + 1..];
      if Success(s[n]) {
        return;
      }
      if Failure(s[n]) {
        consecutive := consecutive + [s[n]];
      } else if !Skip(s[n]) {
        return;
      }
      n := n + 1;
    }
  }

  datatype Config = Config(threshold: int, failureHours: int, successHours: int)

  datatype Detail = FailureDetail(count: nat, newest: int, until: int, jobs: seq<string>)
                  | SuccessDetail(newest: int, until: int, job: string)

  function Jobs(es: seq<Entry>): seq<string> {
    seq(|es|, i requires 0 <= i < |es| => es[i].job)
  }

  function Hours(hours: int): nat {
    Max(0, hours) * 3600
  }

  // One offline failure is enough: the isolated build cannot fetch what it lacks.
  function Required(c: Config, streak: seq<Entry>): int {
    if streak != [] && streak[0].reason == OFFLINE then 1 else Max(0, c.threshold)
  }

  function FailureCooldown(c: Config, now: int, h: seq<Entry>): Option<Detail> {
    Rest(c, now, Streak(Sorted(h)))
  }

  function Rest(c: Config, now: int, streak: seq<Entry>): Option<Detail> {
    if Max(0, c.threshold) == 0 || Hours(c.failureHours) == 0 || |streak| < Required(c, streak) then None
    else if Max(0, now - streak[0].time) >= Hours(c.failureHours) then None
    else Some(FailureDetail(|streak|, streak[0].time, streak[0].time + Hours(c.failureHours), Jobs(streak)))
  }

  // ---------- skipped jobs change nothing ----------

  function WithoutSkips(s: seq<Entry>): seq<Entry> {
    if s == [] then []
    else if Skip(s[|s| - 1]) then WithoutSkips(s[..|s| - 1])
    else WithoutSkips(s[..|s| - 1]) + [s[|s| - 1]]
  }

  lemma {:induction false} WithoutSkipsHead(s: seq<Entry>)
    requires s != []
    ensures WithoutSkips(s) == if Skip(s[0]) then WithoutSkips(s[1..]) else [s[0]] + WithoutSkips(s[1..])
  {
    if |s| > 1 {
      WithoutSkipsHead(s[..|s| - 1]);
      assert s[1..][..|s| - 2] == s[..|s| - 1][1..];
    }
  }

  lemma {:induction false} WithoutSkipsMembers(s: seq<Entry>)
    ensures forall x :: x in WithoutSkips(s) <==> x in s && !Skip(x)
  {
    if s != [] {
      WithoutSkipsMembers(s[..|s| - 1]);
      assert s == s[..|s| - 1] + [s[|s| - 1]];
    }
  }

  lemma {:induction false} StreakIgnoresSkips(s: seq<Entry>)
    ensures Streak(WithoutSkips(s)) == Streak(s)
  {
    if s != [] {
      WithoutSkipsHead(s);
      StreakIgnoresSkips(s[1..]);
      if !Skip(s[0]) {
        assert WithoutSkips(s)[1..] == WithoutSkips(s[1..]);
      }
    }
  }

  lemma NewestStaysFirst(e: Entry, s: seq<Entry>)
    requires NewestFirst(s) && (s != [] ==> !Older(e, s[0]))
    ensures WithoutSkips(s) != [] ==> !Older(e, WithoutSkips(s)[0])
  {
    if WithoutSkips(s) != [] {
      var x := WithoutSkips(s)[0];
      WithoutSkipsMembers(s);
      assert x in WithoutSkips(s);
      var j :| 0 <= j < |s| && s[j] == x;
      OlderIsTotal(e, s[0], s[j]);
      assert j > 0 ==> !Older(s[0], s[j]);
    }
  }

  lemma {:induction false} InsertWithoutSkips(e: Entry, s: seq<Entry>)
    requires NewestFirst(s)
    ensures WithoutSkips(Insert(e, s)) == if Skip(e) then WithoutSkips(s) else Insert(e, WithoutSkips(s))
  {
    var after := Insert(e, s);
    WithoutSkipsHead(after);
    if s != [] && Older(e, s[0]) {
      assert after[1..] == Insert(e, s[1..]);
      InsertWithoutSkips(e, s[1..]);
      WithoutSkipsHead(s);
      if !Skip(s[0]) {
        assert WithoutSkips(s)[1..] == WithoutSkips(s[1..]);
      }
    } else {
      assert after[1..] == s;
      NewestStaysFirst(e, s);
    }
  }

  lemma {:induction false} SortedWithoutSkips(h: seq<Entry>)
    ensures WithoutSkips(Sorted(h)) == Sorted(WithoutSkips(h))
  {
    if h != [] {
      var front, last := h[..|h| - 1], h[|h| - 1];
      SortedWithoutSkips(front);
      SortedIsOrdered(front);
      InsertWithoutSkips(last, Sorted(front));
      if !Skip(last) {
        assert WithoutSkips(h)[..|WithoutSkips(h)| - 1] == WithoutSkips(front);
      }
    }
  }

  // Two histories that differ only by jobs skipped for the cooldown, anywhere, rest alike.
  lemma SkipsAreNeutral(c: Config, now: int, h: seq<Entry>, k: seq<Entry>)
    requires WithoutSkips(h) == WithoutSkips(k)
    ensures FailureCooldown(c, now, h) == FailureCooldown(c, now, k)
  {
    StreakIgnoresSkips(Sorted(h));
    StreakIgnoresSkips(Sorted(k));
    SortedWithoutSkips(h);
    SortedWithoutSkips(k);
  }

  // Anything older than a success, or than any job that ended neither in failure nor in a
  // cooldown skip, is hidden.
  lemma {:induction false} StreakEnds(s: seq<Entry>, p: nat, x: Entry)
    requires NewestFirst(s) && p < |s| && !Failure(s[p]) && !Skip(s[p]) && Older(x, s[p])
    ensures Streak(Insert(x, s)) == Streak(s)
  {
    if p == 0 {
      assert Insert(x, s)[0] == s[0];
    } else {
      assert Older(x, s[0]) by {
        OlderIsTotal(x, s[0], s[p]);
        assert !Older(s[0], s[p]);
      }
      assert Insert(x, s)[1..] == Insert(x, s[1..]);
      StreakEnds(s[1..], p - 1, x);
    }
  }

  // A success hides every older failure.
  lemma SuccessHidesOlder(c: Config, now: int, h: seq<Entry>, success: Entry, older: Entry)
    requires success in h && Success(success) && Older(older, success)
    ensures FailureCooldown(c, now, h + [older]) == FailureCooldown(c, now, h)
  {
    EndHidesOlder(h, success, older);
  }

  lemma EndHidesOlder(h: seq<Entry>, end: Entry, older: Entry)
    requires end in h && !Failure(end) && !Skip(end) && Older(older, end)
    ensures Streak(Sorted(h + [older])) == Streak(Sorted(h))
  {
    assert (h + [older])[..|h|] == h;
    SortedIsOrdered(h);
    SortedMembers(h);
    var p :| 0 <= p < |Sorted(h)| && Sorted(h)[p] == end;
    StreakEnds(Sorted(h), p, older);
  }

  lemma {:induction false} SortedMembers(h: seq<Entry>)
    ensures forall x :: x in Sorted(h) <==> x in h
  {
    if h != [] {
      var front, last := h[..|h| - 1], h[|h| - 1];
      SortedMembers(front);
      InsertMembers(last, Sorted(front));
      assert h == front + [last];
    }
  }

  // Every recorded status has the meaning of its text.
  predicate Recorded(h: seq<Entry>) {
    forall e :: e in h ==> e.status == StatusOf(e.status.text)
  }

  lemma TiesAreEqual(a: Entry, b: Entry)
    requires a.status == StatusOf(a.status.text) && b.status == StatusOf(b.status.text)
    requires !Older(a, b) && !Older(b, a)
    ensures a == b
  {
    LessIsTotal(a.status.text, b.status.text, []);
    LessIsTotal(a.job, b.job, []);
    LessIsTotal(a.reason, b.reason, []);
  }

  // A failure with nothing but failures and cooldown skips in front of it.
  predicate Counts(s: seq<Entry>, j: nat)
    requires j < |s|
  {
    Failure(s[j]) && forall i :: 0 <= i < j ==> Failure(s[i]) || Skip(s[i])
  }

  lemma {:induction false} StreakCounts(s: seq<Entry>, x: Entry)
    ensures x in Streak(s) <==> exists j: nat :: j < |s| && s[j] == x && Counts(s, j)
  {
    if s != [] {
      var rest := s[1..];
      StreakCounts(rest, x);
      if Failure(s[0]) || Skip(s[0]) {
        if j: nat :| j < |rest| && rest[j] == x && Counts(rest, j) {
          assert s[j + 1] == x && Counts(s, j + 1);
        }
        if j: nat :| j < |s| && s[j] == x && Counts(s, j) && j > 0 {
          assert rest[j - 1] == x && Counts(rest, j - 1);
        }
      }
    }
  }

  // The failures that count are exactly those that no job newer than them ended any other way
  // than in failure or in a cooldown skip.
  lemma StreakExactly(h: seq<Entry>, x: Entry)
    requires Recorded(h)
    ensures x in Streak(Sorted(h)) <==>
            x in h && Failure(x) && forall y :: y in h && Older(x, y) ==> Failure(y) || Skip(y)
  {
    var s := Sorted(h);
    SortedIsOrdered(h);
    SortedMembers(h);
    StreakCounts(s, x);
    if x in h && Failure(x) && forall y :: y in h && Older(x, y) ==> Failure(y) || Skip(y) {
      var j: nat :| j < |s| && s[j] == x;
      forall i | 0 <= i < j
        ensures Failure(s[i]) || Skip(s[i])
      {
        assert s[i] in s && !Older(s[i], s[j]);
        if !Older(s[j], s[i]) {
          TiesAreEqual(s[i], s[j]);
        }
      }
      assert Counts(s, j);
    }
    if j: nat :| j < |s| && s[j] == x && Counts(s, j) {
      forall y | y in h && Older(x, y)
        ensures Failure(y) || Skip(y)
      {
        var q: nat :| q < |s| && s[q] == y;
        OlderIsTotal(x, y, x);
        assert q <= j;
      }
    }
  }

  // Not only a success: any newest job that ended neither in failure nor in a cooldown skip
  // reopens the repository. A job skipped as a duplicate selection is one.
  lemma DuplicateSkipReopens(c: Config, now: int, h: seq<Entry>, e: Entry)
    requires e.status.kind.DuplicateSkip? && forall x :: x in h ==> Older(x, e)
    ensures FailureCooldown(c, now, h + [e]) == None
  {
    assert (h + [e])[..|h|] == h;
    SortedMembers(h);
    assert Sorted(h) != [] ==> Sorted(h)[0] in h && !Older(e, Sorted(h)[0]) by {
      if Sorted(h) != [] {
        assert Sorted(h)[0] in Sorted(h);
        OlderIsTotal(Sorted(h)[0], e, e);
      }
    }
    assert Insert(e, Sorted(h))[0] == e;
  }

  // ---------- the saved jobs ----------

  datatype Stage = PolicyRecheck | CompleteStage | OtherStage

  datatype Record = Record(name: string, repository: string, stage: Stage, status: Status, created: string, updated: int, reason: string)

  predicate Complete(r: Record) {
    r.stage.CompleteStage?
  }

  predicate Untouched(r: Record) {
    r.stage.PolicyRecheck? && r.status.kind.Queued?
  }

  function EntryOf(r: Record): Entry {
    Entry(r.updated, r.status, r.name, r.reason)
  }

  function History(rs: seq<Record>, repository: string, n: nat): seq<Entry>
    requires n <= |rs|
  {
    if n == 0 then []
    else if Complete(rs[n - 1]) && rs[n - 1].repository == repository
    then History(rs, repository, n - 1) + [EntryOf(rs[n - 1])]
    else History(rs, repository, n - 1)
  }

  function FailureRest(c: Config, now: int, rs: seq<Record>, repository: string): Option<Detail> {
    if repository == "" then None else FailureCooldown(c, now, History(rs, repository, |rs|))
  }

  predicate Lists(histories: map<string, seq<Entry>>, rs: seq<Record>, n: nat)
    requires n <= |rs|
  {
    && "" !in histories
    && (forall r :: r in histories ==> histories[r] == History(rs, r, n))
    && forall i :: 0 <= i < n && Complete(rs[i]) && rs[i].repository != "" ==> rs[i].repository in histories
  }

  lemma {:induction false} NoHistory(rs: seq<Record>, repository: string, n: nat)
    requires n <= |rs| && forall i :: 0 <= i < n && Complete(rs[i]) ==> rs[i].repository != repository
    ensures History(rs, repository, n) == []
  {
    if n > 0 {
      NoHistory(rs, repository, n - 1);
    }
  }

  method Histories(rs: seq<Record>) returns (histories: map<string, seq<Entry>>)
    ensures Lists(histories, rs, |rs|)
  {
    histories := map[];
    for n := 0 to |rs|
      invariant Lists(histories, rs, n)
    {
      var r := rs[n].repository;
      if Complete(rs[n]) && r != "" {
        if r !in histories {
          NoHistory(rs, r, n);
        }
        histories := histories[r := (if r in histories then histories[r] else []) + [EntryOf(rs[n])]];
      }
    }
  }

  // The resting repositories are exactly those whose own history says so.
  method RepositoryFailureCooldowns(c: Config, now: int, rs: seq<Record>) returns (blocked: map<string, Detail>)
    ensures forall r :: r in blocked <==> FailureRest(c, now, rs, r).Some?
    ensures forall r :: r in blocked ==> blocked[r] == FailureRest(c, now, rs, r).value
  {
    blocked := map[];
    if Max(0, c.threshold) == 0 || Hours(c.failureHours) == 0 {
      return;
    }
    var histories := Histories(rs);
    var left := histories.Keys;
    while left != {}
      invariant left <= histories.Keys && blocked.Keys <= histories.Keys - left
      invariant forall r :: r in histories && r !in left ==> (r in blocked <==> FailureRest(c, now, rs, r).Some?)
      invariant forall r :: r in blocked ==> blocked[r] == FailureRest(c, now, rs, r).value
      decreases left
    {
      var r :| r in left;
      var consecutive := Consecutive(histories[r]);
      var detail := Rest(c, now, consecutive);
      if detail.Some? {
        blocked := blocked[r := detail.value];
      }
      left := left - {r};
    }
    forall r | r !in histories && r != ""
      ensures FailureRest(c, now, rs, r) == None
    {
      NoHistory(rs, r, |rs|);
    }
  }

  // The newest completed success of a repository; the first found among equals.
  function NewestSuccess(rs: seq<Record>, repository: string, n: nat): Option<Entry>
    requires n <= |rs|
  {
    if n == 0 then None
    else
      var before := NewestSuccess(rs, repository, n - 1);
      var r := rs[n - 1];
      if Complete(r) && r.repository == repository && r.status.kind.Succeeded? && (before.None? || r.updated > before.value.time)
      then Some(EntryOf(r)) else before
  }

  lemma {:induction false} NewestSuccessIsNewest(rs: seq<Record>, repository: string, n: nat)
    requires n <= |rs|
    ensures NewestSuccess(rs, repository, n).Some? ==>
              NewestSuccess(rs, repository, n).value in History(rs, repository, n) && Success(NewestSuccess(rs, repository, n).value)
    ensures forall e :: e in History(rs, repository, n) && Success(e) ==>
              NewestSuccess(rs, repository, n).Some? && e.time <= NewestSuccess(rs, repository, n).value.time
  {
    if n > 0 {
      NewestSuccessIsNewest(rs, repository, n - 1);
    }
  }

  function SuccessRest(c: Config, now: int, rs: seq<Record>, repository: string): Option<Detail> {
    var newest := NewestSuccess(rs, repository, |rs|);
    if repository == "" || Hours(c.successHours) == 0 || newest.None? then None
    else if Max(0, now - newest.value.time) >= Hours(c.successHours) then None
    else Some(SuccessDetail(newest.value.time, newest.value.time + Hours(c.successHours), newest.value.job))
  }

  method RepositorySuccessCooldowns(c: Config, now: int, rs: seq<Record>) returns (blocked: map<string, Detail>)
    ensures forall r :: r in blocked <==> SuccessRest(c, now, rs, r).Some?
    ensures forall r :: r in blocked ==> blocked[r] == SuccessRest(c, now, rs, r).value
  {
    blocked := map[];
    if Hours(c.successHours) == 0 {
      return;
    }
    var newest: map<string, Entry> := map[];
    for n := 0 to |rs|
      invariant forall r :: r in newest <==> r != "" && NewestSuccess(rs, r, n).Some?
      invariant forall r :: r in newest ==> newest[r] == NewestSuccess(rs, r, n).value
    {
      var r := rs[n];
      if Complete(r) && r.status.kind.Succeeded? && r.repository != "" {
        if r.repository !in newest || r.updated > newest[r.repository].time {
          newest := newest[r.repository := EntryOf(r)];
        }
      }
    }
    var left := newest.Keys;
    while left != {}
      invariant left <= newest.Keys && blocked.Keys <= newest.Keys - left
      invariant forall r :: r in newest && r !in left ==> (r in blocked <==> SuccessRest(c, now, rs, r).Some?)
      invariant forall r :: r in blocked ==> blocked[r] == SuccessRest(c, now, rs, r).value
      decreases left
    {
      var r :| r in left;
      var observed := newest[r].time;
      if Max(0, now - observed) < Hours(c.successHours) {
        blocked := blocked[r := SuccessDetail(observed, observed + Hours(c.successHours), newest[r].job)];
      }
      left := left - {r};
    }
  }

  predicate Resting(c: Config, now: int, rs: seq<Record>, repository: string) {
    FailureRest(c, now, rs, repository).Some? || SuccessRest(c, now, rs, repository).Some?
  }

  // ---------- the quarantine pass ----------

  predicate Quarantines(c: Config, now: int, rs: seq<Record>, r: Record) {
    Untouched(r) && Resting(c, now, rs, r.repository)
  }

  function Skipped(r: Record, stamp: int): Record {
    r.(stage := CompleteStage, status := StatusOf("skipped_repository_cooldown"), updated := stamp)
  }

  function Quarantined(c: Config, now: int, rs: seq<Record>, n: nat): seq<Record>
    requires n <= |rs|
  {
    seq(|rs|, i requires 0 <= i < |rs| => if i < n && Quarantines(c, now, rs, rs[i]) then Skipped(rs[i], now) else rs[i])
  }

  // ---------- duplicate selections ----------

  predicate Earlier(a: Record, b: Record) {
    Less(a.created, b.created) || (a.created == b.created && Less(a.name, b.name))
  }

  // Begun or finished on its own account.
  predicate Started(r: Record) {
    !r.status.kind.DuplicateSkip? && !Untouched(r)
  }

  // The earliest job of a repository, or the earliest started one.
  function Best(rs: seq<Record>, repository: string, started: bool, n: nat): (best: Option<nat>)
    requires n <= |rs|
    ensures best.Some? ==> best.value < n
  {
    if n == 0 then None
    else
      var before := Best(rs, repository, started, n - 1);
      if rs[n - 1].repository == repository && (started ==> Started(rs[n - 1])) &&
         (before.None? || Earlier(rs[n - 1], rs[before.value]))
      then Some(n - 1) else before
  }

  function Keeper(rs: seq<Record>, repository: string): Option<nat> {
    if Best(rs, repository, true, |rs|).Some? then Best(rs, repository, true, |rs|) else Best(rs, repository, false, |rs|)
  }

  function DuplicateOf(r: Record, stamp: int): Record {
    r.(stage := CompleteStage, status := StatusOf("skipped_previously_attempted"), updated := stamp)
  }

  predicate Duplicates(rs: seq<Record>, i: nat)
    requires i < |rs|
  {
    Untouched(rs[i]) && rs[i].repository != "" && Keeper(rs, rs[i].repository) != Some(i)
  }

  function Deduplicated(rs: seq<Record>, now: int, n: nat): seq<Record>
    requires n <= |rs|
  {
    seq(|rs|, i requires 0 <= i < |rs| => if i < n && Duplicates(rs, i) then DuplicateOf(rs[i], now) else rs[i])
  }

  method BestOf(rs: seq<Record>, started: bool) returns (best: map<string, nat>)
    ensures forall r :: r in best <==> r != "" && Best(rs, r, started, |rs|).Some?
    ensures forall r :: r in best ==> Best(rs, r, started, |rs|) == Some(best[r])
    ensures !started ==> forall i :: 0 <= i < |rs| && rs[i].repository != "" ==> rs[i].repository in best
  {
    best := map[];
    for n := 0 to |rs|
      invariant forall r :: r in best <==> r != "" && Best(rs, r, started, n).Some?
      invariant forall r :: r in best ==> Best(rs, r, started, n) == Some(best[r])
      invariant !started ==> forall i :: 0 <= i < n && rs[i].repository != "" ==> rs[i].repository in best
    {
      var r := rs[n].repository;
      if r != "" && (started ==> Started(rs[n])) && (r !in best || Earlier(rs[n], rs[best[r]])) {
        best := best[r := n];
      }
    }
  }

  lemma {:induction false} BestIsStarted(rs: seq<Record>, repository: string, started: bool, n: nat, i: nat)
    requires i < n <= |rs| && rs[i].repository == repository && (started ==> Started(rs[i]))
    ensures Best(rs, repository, started, n).Some?
    ensures rs[Best(rs, repository, started, n).value].repository == repository
    ensures started ==> Started(rs[Best(rs, repository, started, n).value])
    decreases n
  {
    if i < n - 1 {
      BestIsStarted(rs, repository, started, n - 1, i);
    } else if n > 1 {
      BestShape(rs, repository, started, n - 1);
    }
  }

  lemma {:induction false} BestShape(rs: seq<Record>, repository: string, started: bool, n: nat)
    requires n <= |rs|
    ensures var best := Best(rs, repository, started, n);
            best.Some? ==> rs[best.value].repository == repository && (started ==> Started(rs[best.value]))
  {
    if n > 0 {
      BestShape(rs, repository, started, n - 1);
    }
  }

  // Only untouched jobs are marked, and a marked job is neither untouched nor started.
  predicate Marked(before: Record, after: Record) {
    && after.repository == before.repository && after.created == before.created && after.name == before.name
    && (after == before || (Untouched(before) && !Untouched(after) && !Started(after)))
  }

  lemma {:induction false} MarkedBest(rs: seq<Record>, after: seq<Record>, repository: string, started: bool, n: nat)
    requires n <= |rs| == |after| && forall i :: 0 <= i < |rs| ==> Marked(rs[i], after[i])
    ensures Best(after, repository, started, n) == Best(rs, repository, started, n)
  {
    if n > 0 {
      MarkedBest(rs, after, repository, started, n - 1);
      assert Marked(rs[n - 1], after[n - 1]);
    }
  }

  lemma DeduplicatedIsMarked(rs: seq<Record>, now: int, i: nat)
    requires i < |rs|
    ensures Marked(rs[i], Deduplicated(rs, now, |rs|)[i])
  {
  }

  // The pass keeps the job that stands for each repository, leaves no second untouched job of
  // it and none beside a started one, and a second pass finds nothing to do.
  lemma OneSelectionLeft(rs: seq<Record>, now: int, repository: string, i: nat)
    requires repository != "" && i < |rs| && rs[i].repository == repository
    ensures var after := Deduplicated(rs, now, |rs|);
            && Keeper(after, repository) == Keeper(rs, repository) && Keeper(rs, repository).Some?
            && after[Keeper(rs, repository).value] == rs[Keeper(rs, repository).value]
            && (Untouched(after[i]) ==> Keeper(rs, repository) == Some(i))
            && (Started(rs[i]) ==> Started(rs[Keeper(rs, repository).value]))
  {
    var after := Deduplicated(rs, now, |rs|);
    forall k: nat | k < |rs|
      ensures Marked(rs[k], after[k])
    {
      DeduplicatedIsMarked(rs, now, k);
    }
    MarkedBest(rs, after, repository, true, |rs|);
    MarkedBest(rs, after, repository, false, |rs|);
    BestIsStarted(rs, repository, false, |rs|, i);
    BestShape(rs, repository, true, |rs|);
    if Started(rs[i]) {
      BestIsStarted(rs, repository, true, |rs|, i);
    }
  }

  lemma DeduplicationIsIdempotent(rs: seq<Record>, now: int)
    ensures var after := Deduplicated(rs, now, |rs|);
            Deduplicated(after, now, |after|) == after
  {
    var after := Deduplicated(rs, now, |rs|);
    forall i: nat | i < |rs| && after[i].repository != "" && Untouched(after[i])
      ensures !Duplicates(after, i)
    {
      OneSelectionLeft(rs, now, rs[i].repository, i);
    }
  }

  class JobStore {
    var records: seq<Record>

    constructor (records: seq<Record>)
      ensures this.records == records
    {
      this.records := records;
    }

    // Finishes the untouched jobs of a repository that another saved job stands for.
    method QuarantinePreviouslySelectedJobs(now: int)
      modifies this
      ensures records == Deduplicated(old(records), now, |old(records)|)
    {
      var started := BestOf(records, true);
      var all := BestOf(records, false);
      assert records == Deduplicated(old(records), now, 0);
      for n := 0 to |records|
        invariant records == Deduplicated(old(records), now, n)
      {
        var r := records[n];
        if r.repository != "" && Untouched(r) {
          var keeper := if r.repository in started then started[r.repository] else all[r.repository];
          if keeper != n {
            records := records[n := DuplicateOf(r, now)];
          }
        }
      }
    }

    // Finishes the untouched queued jobs of resting repositories, and nothing else.
    method QuarantineRepositoryCooldownJobs(c: Config, now: int) returns (quarantined: seq<string>)
      modifies this
      ensures records == Quarantined(c, now, old(records), |old(records)|)
      ensures forall name :: name in quarantined <==>
                exists i :: 0 <= i < |old(records)| && Quarantines(c, now, old(records), old(records)[i]) && old(records)[i].name == name
    {
      var failures := RepositoryFailureCooldowns(c, now, records);
      var successes := RepositorySuccessCooldowns(c, now, records);
      quarantined := [];
      assert records == Quarantined(c, now, old(records), 0);
      for n := 0 to |records|
        invariant records == Quarantined(c, now, old(records), n)
        invariant forall name :: name in quarantined <==>
                    exists i :: 0 <= i < n && Quarantines(c, now, old(records), old(records)[i]) && old(records)[i].name == name
      {
        var r := records[n];
        if Untouched(r) && (r.repository in failures || r.repository in successes) {
          records := records[n := Skipped(r, now)];
          quarantined := quarantined + [r.name];
        }
      }
    }
  }

  // A record that was untouched may have been finished for the cooldown since.
  predicate Finished(before: Record, after: Record) {
    after == before || (!Complete(before) && Complete(after) && Skip(EntryOf(after)) && !Success(EntryOf(after)))
  }

  // Histories that differ only by cooldown skips.
  datatype Pair = Pair(h: seq<Entry>, k: seq<Entry>)

  ghost predicate Alike(p: Pair) {
    WithoutSkips(p.k) == WithoutSkips(p.h)
  }

  lemma {:induction false} AlikeBoth(p: Pair, e: Entry)
    requires Alike(p)
    ensures Alike(Pair(p.h + [e], p.k + [e]))
  {
    assert (p.h + [e])[..|p.h|] == p.h && (p.k + [e])[..|p.k|] == p.k;
  }

  lemma {:induction false} AlikeSkip(p: Pair, e: Entry)
    requires Alike(p) && Skip(e)
    ensures Alike(Pair(p.h, p.k + [e]))
  {
    assert (p.k + [e])[..|p.k|] == p.k;
  }

  function Both(rs: seq<Record>, after: seq<Record>, repository: string, n: nat): Pair
    requires n <= |rs| == |after|
  {
    Pair(History(rs, repository, n), History(after, repository, n))
  }

  lemma {:induction false} FinishedHistory(rs: seq<Record>, after: seq<Record>, repository: string, n: nat)
    requires n <= |rs| == |after| && forall i :: 0 <= i < |rs| ==> Finished(rs[i], after[i])
    ensures Alike(Both(rs, after, repository, n))
  {
    if n > 0 {
      var p, r, a := Both(rs, after, repository, n - 1), rs[n - 1], after[n - 1];
      FinishedHistory(rs, after, repository, n - 1);
      assert Finished(r, a);
      if Complete(r) && r.repository == repository {
        AlikeBoth(p, EntryOf(r));
        assert Both(rs, after, repository, n) == Pair(p.h + [EntryOf(r)], p.k + [EntryOf(r)]);
      } else if Complete(a) && a.repository == repository {
        AlikeSkip(p, EntryOf(a));
        assert Both(rs, after, repository, n) == Pair(p.h, p.k + [EntryOf(a)]);
      } else {
        assert Both(rs, after, repository, n) == p;
      }
    }
  }

  lemma {:induction false} FinishedSuccess(rs: seq<Record>, after: seq<Record>, repository: string, n: nat)
    requires n <= |rs| == |after| && forall i :: 0 <= i < |rs| ==> Finished(rs[i], after[i])
    ensures NewestSuccess(after, repository, n) == NewestSuccess(rs, repository, n)
  {
    if n > 0 {
      FinishedSuccess(rs, after, repository, n - 1);
    }
  }

  lemma QuarantinedIsFinished(c: Config, now: int, rs: seq<Record>, i: nat)
    requires i < |rs|
    ensures Finished(rs[i], Quarantined(c, now, rs, |rs|)[i])
  {
  }

  lemma {:induction false} FinishedRests(c: Config, later: int, rs: seq<Record>, after: seq<Record>, repository: string)
    requires |rs| == |after| && forall i :: 0 <= i < |rs| ==> Finished(rs[i], after[i])
    ensures FailureRest(c, later, after, repository) == FailureRest(c, later, rs, repository)
    ensures SuccessRest(c, later, after, repository) == SuccessRest(c, later, rs, repository)
  {
    FinishedHistory(rs, after, repository, |rs|);
    FinishedSuccess(rs, after, repository, |rs|);
    var p := Both(rs, after, repository, |rs|);
    SkipsAreNeutral(c, later, p.k, p.h);
  }

  // The pass opens and closes no repository, now or later.
  lemma {:induction false} QuarantineIsNeutral(c: Config, now: int, later: int, rs: seq<Record>, repository: string)
    ensures var after := Quarantined(c, now, rs, |rs|);
            && FailureRest(c, later, after, repository) == FailureRest(c, later, rs, repository)
            && SuccessRest(c, later, after, repository) == SuccessRest(c, later, rs, repository)
  {
    var after := Quarantined(c, now, rs, |rs|);
    forall i: nat | i < |rs|
      ensures Finished(rs[i], after[i])
    {
      QuarantinedIsFinished(c, now, rs, i);
    }
    FinishedRests(c, later, rs, after, repository);
  }

  // A second pass at the same time finds nothing to do.
  lemma QuarantineIsIdempotent(c: Config, now: int, rs: seq<Record>)
    ensures var after := Quarantined(c, now, rs, |rs|);
            Quarantined(c, now, after, |after|) == after
  {
    var after := Quarantined(c, now, rs, |rs|);
    forall i | 0 <= i < |rs|
      ensures !Quarantines(c, now, after, after[i])
    {
      QuarantineIsNeutral(c, now, now, rs, after[i].repository);
    }
  }
}
