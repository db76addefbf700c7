// The ARM preflight of a scan: which candidates get one of the few expensive build probes, and
// the funnel that accounts for every candidate considered.
module ArmPreflight {
  import opened Basics

  // ---------- the funnel ----------

  datatype Outcome =
    | Considered | PreDiscoveryCooldown
    | Unavailable | ArchitectureBlocker | MissingProgramUrl | MissingPolicyUrl | LowScore | NoBuildSystem
    | CachedPass | SizeOutOfRange | FailedCacheCooldown | RepositoryBuildCooldown
    | StoppedAfterCachedSuccess | AttemptLimit | TimeBudget | Attempted | StoppedAfterSuccess

  type Funnel = map<Outcome, nat>

  function Get(f: Funnel, o: Outcome): nat {
    if o in f then f[o] else 0
  }

  function Record(f: Funnel, o: Outcome, n: nat): Funnel {
    if n == 0 then f else f[o := Get(f, o) + n]
  }

  // Every way a considered candidate can end.
  const ENDINGS: seq<Outcome> := [
    Unavailable, ArchitectureBlocker, MissingProgramUrl, MissingPolicyUrl, LowScore, NoBuildSystem, CachedPass,
    SizeOutOfRange, FailedCacheCooldown, RepositoryBuildCooldown, StoppedAfterCachedSuccess, AttemptLimit,
    TimeBudget, Attempted, StoppedAfterSuccess]

  function Sum(f: Funnel, os: seq<Outcome>): nat {
    if os == [] then 0 else Sum(f, os[1..]) + Get(f, os[0])
  }

  function Terminal(f: Funnel): nat {
    Sum(f, ENDINGS)
  }

  predicate Ends(o: Outcome) {
    !o.Considered? && !o.PreDiscoveryCooldown?
  }

  function Position(o: Outcome): int {
    match o
    case Considered => -1
    case PreDiscoveryCooldown => -1
    case Unavailable => 0
    case ArchitectureBlocker => 1
    case MissingProgramUrl => 2
    case MissingPolicyUrl => 3
    case LowScore => 4
    case NoBuildSystem => 5
    case CachedPass => 6
    case SizeOutOfRange => 7
    case FailedCacheCooldown => 8
    case RepositoryBuildCooldown => 9
    case StoppedAfterCachedSuccess => 10
    case AttemptLimit => 11
    case TimeBudget => 12
    case Attempted => 13
    case StoppedAfterSuccess => 14
  }

  lemma EndingAt(i: nat)
    requires i < 15
    ensures Position(ENDINGS[i]) == i
  {
  }

  lemma EndingsListed(o: Outcome)
    ensures o in ENDINGS <==> Ends(o)
    ensures forall i, j :: 0 <= i < j < |ENDINGS| ==> ENDINGS[i] != ENDINGS[j]
  {
    forall i: nat | i < |ENDINGS|
      ensures Position(ENDINGS[i]) == i
    {
      EndingAt(i);
    }
    if Ends(o) {
      assert ENDINGS[Position(o)] == o;
    }
  }

  lemma RecordGet(f: Funnel, o: Outcome, n: nat, p: Outcome)
    ensures Get(Record(f, o, n), p) == Get(f, p) + if p == o then n else 0
  {
  }

  lemma {:induction false} RecordSum(f: Funnel, o: Outcome, n: nat, os: seq<Outcome>)
    requires forall i, j :: 0 <= i < j < |os| ==> os[i] != os[j]
    ensures Sum(Record(f, o, n), os) == Sum(f, os) + if o in os then n else 0
  {
    if os != [] {
      RecordSum(f, o, n, os[1..]);
      RecordGet(f, o, n, os[0]);
      assert o in os <==> o == os[0] || o in os[1..];
    }
  }

  lemma RecordTerminal(f: Funnel, o: Outcome, n: nat)
    ensures Terminal(Record(f, o, n)) == Terminal(f) + if Ends(o) then n else 0
    ensures forall p :: p != o ==> Get(Record(f, o, n), p) == Get(f, p)
    ensures Get(Record(f, o, n), o) == Get(f, o) + n
  {
    EndingsListed(o);
    RecordSum(f, o, n, ENDINGS);
    RecordGet(f, o, n, o);
    forall p | p != o
      ensures Get(Record(f, o, n), p) == Get(f, p)
    {
      RecordGet(f, o, n, p);
    }
  }

  // Exactly `closed` more candidates have ended since the funnel was `before`.
  ghost predicate Closes(before: Funnel, after: Funnel, closed: nat) {
    && Terminal(after) == Terminal(before) + closed
    && Get(after, Considered) == Get(before, Considered)
    && Get(after, PreDiscoveryCooldown) == Get(before, PreDiscoveryCooldown)
  }

  // ---------- candidates ----------

  // What is stored about earlier probes: of this commit, and of an older commit of the same
  // repository. An unreadable timestamp has no age. Ages are in seconds.
  datatype Cache = Uncached | Passing(current: bool) | Failing(age: Option<int>, transient: bool)

  datatype Facts = Facts(
    verified: bool, nativeLanguage: bool, programUrl: bool, policyUrl: bool, buildSystem: bool,
    score: int, staticScore: int, kilobytes: int, cache: Cache, olderFailure: Option<int>,
    priorSuccess: bool, priorFailure: bool, catalog: bool, family: nat, name: nat)

  datatype Settings = Settings(
    enabled: bool, aarch64: bool, minimumScore: int, margin: nat, aiMayChangeScore: bool, aiMinimum: int,
    maximumKilobytes: int, retryHours: nat, perScan: int)

  datatype Blocker = NoSupportEvidence | ProbeRequired | OtherBlocker(id: nat)

  datatype Assessment = Assessment(compatible: bool, blockers: seq<Blocker>)

  class Candidate {
    const facts: Facts
    var architecture: Option<Assessment>

    constructor (facts: Facts, architecture: Option<Assessment>)
      ensures this.facts == facts && this.architecture == architecture
    {
      this.facts, this.architecture := facts, architecture;
    }

    predicate Compatible()
      reads this
    {
      architecture.Some? && architecture.value.compatible
    }

    predicate ArchitectureBlocked()
      reads this
    {
      architecture.None? ||
      !(architecture.value.compatible || architecture.value.blockers == [NoSupportEvidence] ||
        architecture.value.blockers == [ProbeRequired])
    }

    // A label is not proof: the candidate waits for a probe of its own commit.
    method RequireProbe()
      requires architecture.Some?
      modifies this
      ensures architecture.Some? && !architecture.value.compatible
      ensures forall b :: b in architecture.value.blockers <==>
                b == ProbeRequired || (b in old(architecture.value.blockers) && b != NoSupportEvidence)
    {
      var blockers := Without(architecture.value.blockers, NoSupportEvidence);
      forall b
        ensures b in blockers <==> b in architecture.value.blockers && b != NoSupportEvidence
      {
        WithoutKeeps(architecture.value.blockers, NoSupportEvidence, b);
      }
      if ProbeRequired !in blockers {
        blockers := blockers + [ProbeRequired];
      }
      architecture := Some(Assessment(false, blockers));
    }

    method Accept()
      modifies this
      ensures architecture == Some(Assessment(true, []))
    {
      architecture := Some(Assessment(true, []));
    }
  }

  function Without(bs: seq<Blocker>, b: Blocker): seq<Blocker> {
    if bs == [] then []
    else if bs[0] == b then Without(bs[1..], b)
    else [bs[0]] + Without(bs[1..], b)
  }

  lemma {:induction false} WithoutKeeps(bs: seq<Blocker>, b: Blocker, other: Blocker)
    ensures other in Without(bs, b) <==> other in bs && other != b
  {
    if bs != [] {
      WithoutKeeps(bs[1..], b, other);
      assert bs == [bs[0]] + bs[1..];
    }
  }

  predicate IsConsidered(f: Facts) {
    f.verified && f.nativeLanguage
  }

  function CountConsidered(cs: seq<Candidate>, n: nat): nat
    requires n <= |cs|
  {
    if n == 0 then 0 else CountConsidered(cs, n - 1) + if IsConsidered(cs[n - 1].facts) then 1 else 0
  }

  predicate ScoreSuffices(f: Facts, s: Settings) {
    f.score >= s.minimumScore ||
    (s.aiMayChangeScore && f.staticScore >= s.aiMinimum && f.score >= s.minimumScore - s.margin)
  }

  function RetrySeconds(s: Settings, transient: bool): nat {
    if transient then Min(s.retryHours * 3600, 15 * 60) else s.retryHours * 3600
  }

  // Why a candidate past the architecture check gets no probe in this scan, if anything.
  function Refusal(f: Facts, s: Settings): Option<Outcome> {
    if !f.programUrl then Some(MissingProgramUrl)
    else if !f.policyUrl then Some(MissingPolicyUrl)
    else if !ScoreSuffices(f, s) then Some(LowScore)
    else if !f.buildSystem then Some(NoBuildSystem)
    else if f.cache == Passing(true) then Some(CachedPass)
    else if !(0 < f.kilobytes <= Min(100_000, Max(1, s.maximumKilobytes))) then Some(SizeOutOfRange)
    else if f.cache.Failing? && f.cache.age.Some? && f.cache.age.value < RetrySeconds(s, f.cache.transient)
    then Some(FailedCacheCooldown)
    else if f.cache.Uncached? && f.olderFailure.Some? && 0 <= f.olderFailure.value < s.retryHours * 3600
    then Some(RepositoryBuildCooldown)
    else None
  }

  // Without an AI review that may lower it, the score of a pending candidate is final.
  lemma PendingIsHandoffReady(f: Facts, s: Settings)
    requires !s.aiMayChangeScore && (Refusal(f, s) == None || Refusal(f, s) == Some(CachedPass))
    ensures f.score >= s.minimumScore
  {
  }

  // ---------- filtering ----------

  // The filter's books: `closed` candidates have ended, `passed` of them by a cached pass.
  ghost predicate Filtered(before: Funnel, after: Funnel, closed: nat, passed: nat) {
    && Closes(before, after, closed)
    && Get(after, CachedPass) == Get(before, CachedPass) + passed
    && Get(after, Attempted) == Get(before, Attempted)
  }

  lemma FilteredOne(before: Funnel, f: Funnel, closed: nat, passed: nat, o: Outcome)
    requires Filtered(before, f, closed, passed) && Ends(o) && !o.Attempted?
    ensures Filtered(before, Record(f, o, 1), closed + 1, if o.CachedPass? then passed + 1 else passed)
  {
    RecordTerminal(f, o, 1);
  }

  // The candidates a preflight may touch at all.
  function Considering(cs: seq<Candidate>): set<Candidate> {
    set c | c in cs && IsConsidered(c.facts)
  }

  // One considered candidate: its outcome, or none yet when it is to wait for a probe.
  method Consider(c: Candidate, s: Settings) returns (outcome: Option<Outcome>)
    modifies c
    ensures outcome.Some? ==> Ends(outcome.value) && !outcome.value.Attempted?
    ensures outcome.None? ==> Refusal(c.facts, s) == None
    ensures outcome == Some(CachedPass) <==> !old(c.ArchitectureBlocked()) && Refusal(c.facts, s) == Some(CachedPass)
    ensures c.Compatible() <==> outcome == Some(CachedPass)
    ensures outcome == Some(ArchitectureBlocker) <==> old(c.ArchitectureBlocked())
    ensures old(c.ArchitectureBlocked()) ==> c.architecture == old(c.architecture)
  {
    if c.ArchitectureBlocked() {
      return Some(ArchitectureBlocker);
    }
    c.RequireProbe();
    outcome := Refusal(c.facts, s);
    if outcome == Some(CachedPass) {
      c.Accept();
    }
  }

  // After the filter, a considered candidate is compatible exactly when a cached probe proved it.
  method Filter(candidates: seq<Candidate>, s: Settings, before: Funnel)
    returns (pending: seq<Candidate>, passed: nat, ready: bool, funnel: Funnel, ghost proven: set<Candidate>)
    modifies Considering(candidates)
    ensures |pending| <= CountConsidered(candidates, |candidates|)
    ensures Filtered(before, funnel, CountConsidered(candidates, |candidates|) - |pending|, passed)
    ensures forall c :: c in pending ==> Awaits(c, candidates, s)
    ensures forall c :: c in proven ==> c in candidates && c.facts.cache == Passing(true)
    ensures forall c :: c in candidates && IsConsidered(c.facts) ==> (c.Compatible() <==> c in proven)
    ensures !s.aiMayChangeScore ==> (ready <==> passed > 0)
    ensures Appears(candidates, pending)
  {
    pending, passed, ready, funnel := [], 0, false, before;
    ghost var where: seq<nat> := [];
    for n := 0 to |candidates|
      invariant |pending| <= CountConsidered(candidates, n)
      invariant Filtered(before, funnel, CountConsidered(candidates, n) - |pending|, passed)
      invariant forall c :: c in pending ==> Awaits(c, candidates, s)
      invariant forall k :: 0 <= k < n && IsConsidered(candidates[k].facts) && candidates[k].Compatible() ==>
                  candidates[k].facts.cache == Passing(true)
      invariant !s.aiMayChangeScore ==> (ready <==> passed > 0)
      invariant Traces(candidates, pending, where, n)
    {
      var c := candidates[n];
      if IsConsidered(c.facts) {
        var outcome := Consider(c, s);
        if outcome.None? {
          pending := pending + [c];
          where := where + [n];
        } else {
          FilteredOne(before, funnel, CountConsidered(candidates, n) - |pending|, passed, outcome.value);
          funnel := Record(funnel, outcome.value, 1);
          if outcome.value.CachedPass? {
            passed := passed + 1;
            ready := ready || c.facts.score >= s.minimumScore;
          }
        }
      }
    }
    proven := set c | c in candidates && IsConsidered(c.facts) && c.Compatible();
  }

  predicate Awaits(c: Candidate, candidates: seq<Candidate>, s: Settings) {
    c in candidates && IsConsidered(c.facts) && Refusal(c.facts, s) == None
  }

  // The pending candidates stand at increasing positions of the candidate list.
  ghost predicate Traces(candidates: seq<Candidate>, pending: seq<Candidate>, where: seq<nat>, n: nat) {
    && |where| == |pending|
    && (forall k :: 0 <= k < |where| ==> where[k] < n && where[k] < |candidates| && candidates[where[k]] == pending[k])
    && forall k, l :: 0 <= k < l < |where| ==> where[k] < where[l]
  }

  ghost predicate Appears(candidates: seq<Candidate>, pending: seq<Candidate>) {
    exists where: seq<nat> :: Traces(candidates, pending, where, |candidates|)
  }

  predicate Distinct(cs: seq<Candidate>) {
    forall i, j :: 0 <= i < j < |cs| ==> cs[i] != cs[j]
  }

  // ---------- ordering ----------

  // The scan's order of preference, first difference first.
  predicate Precedes(a: Facts, b: Facts) {
    if a.priorSuccess != b.priorSuccess then a.priorSuccess
    else if a.priorFailure != b.priorFailure then b.priorFailure
    else if a.catalog != b.catalog then a.catalog
    else if a.kilobytes != b.kilobytes then a.kilobytes < b.kilobytes
    else if a.score != b.score then a.score > b.score
    else a.name < b.name
  }

  function Insert(c: Candidate, cs: seq<Candidate>): seq<Candidate> {
    if cs != [] && Precedes(c.facts, cs[|cs| - 1].facts)
    then Insert(c, cs[..|cs| - 1]) + [cs[|cs| - 1]]
    else cs + [c]
  }

  // A stable sort by preference.
  function Sorted(cs: seq<Candidate>): seq<Candidate> {
    if cs == [] then [] else Insert(cs[|cs| - 1], Sorted(cs[..|cs| - 1]))
  }

  predicate Ordered(cs: seq<Candidate>) {
    forall i, j :: 0 <= i < j < |cs| ==> !Precedes(cs[j].facts, cs[i].facts)
  }

  lemma PreferenceIsTotal(a: Facts, b: Facts, c: Facts)
    requires !Precedes(a, b) && !Precedes(b, c)
    ensures !Precedes(a, c)
    ensures Precedes(c, a) || !Precedes(c, b) || !Precedes(b, c)
  {
  }

  lemma PrecedesAsymmetric(a: Facts, b: Facts)
    ensures !Precedes(a, b) || !Precedes(b, a)
  {
  }

  lemma {:induction false} LastCounts(cs: seq<Candidate>)
    requires cs != []
    ensures multiset(cs) == multiset(cs[..|cs| - 1]) + multiset{cs[|cs| - 1]}
  {
    assert cs == cs[..|cs| - 1] + [cs[|cs| - 1]];
  }

  lemma {:induction false} InsertKeepsAll(c: Candidate, cs: seq<Candidate>)
    ensures multiset(Insert(c, cs)) == multiset(cs) + multiset{c}
  {
    if cs != [] {
      LastCounts(cs);
      InsertKeepsAll(c, cs[..|cs| - 1]);
    }
  }

  lemma InsertMember(c: Candidate, cs: seq<Candidate>, d: Candidate)
    requires d in Insert(c, cs)
    ensures d == c || d in cs
  {
    InsertKeepsAll(c, cs);
    assert d in multiset(Insert(c, cs));
  }

  lemma {:induction false} InsertKeepsOrder(c: Candidate, cs: seq<Candidate>)
    requires Ordered(cs)
    ensures Ordered(Insert(c, cs))
  {
    if cs != [] {
      var front, last := cs[..|cs| - 1], cs[|cs| - 1];
      if Precedes(c.facts, last.facts) {
        InsertKeepsOrder(c, front);
        forall d | d in Insert(c, front)
          ensures !Precedes(last.facts, d.facts)
        {
          InsertMember(c, front, d);
          if d != c {
            var i :| 0 <= i < |front| && front[i] == d;
            assert !Precedes(cs[|cs| - 1].facts, cs[i].facts);
          } else {
            PrecedesAsymmetric(c.facts, last.facts);
          }
        }
      } else {
        forall i | 0 <= i < |cs|
          ensures !Precedes(c.facts, cs[i].facts)
        {
          PreferenceIsTotal(c.facts, last.facts, cs[i].facts);
        }
      }
    }
  }

  lemma {:induction false} SortedKeepsOrder(cs: seq<Candidate>)
    ensures Ordered(Sorted(cs))
  {
    if cs != [] {
      SortedKeepsOrder(cs[..|cs| - 1]);
      InsertKeepsOrder(cs[|cs| - 1], Sorted(cs[..|cs| - 1]));
    }
  }

  lemma {:induction false} SortedKeepsAll(cs: seq<Candidate>)
    ensures multiset(Sorted(cs)) == multiset(cs)
  {
    if cs != [] {
      SortedKeepsAll(cs[..|cs| - 1]);
      InsertKeepsAll(cs[|cs| - 1], Sorted(cs[..|cs| - 1]));
      LastCounts(cs);
    }
  }

  // The sort puts the candidates in order and loses or doubles none.
  lemma {:induction false} SortedKeeps(cs: seq<Candidate>)
    ensures Ordered(Sorted(cs)) && multiset(Sorted(cs)) == multiset(cs)
  {
    SortedKeepsOrder(cs);
    SortedKeepsAll(cs);
  }

  // ---------- selecting ----------

  predicate First(p: seq<Candidate>, i: nat)
    requires i < |p|
  {
    forall j :: 0 <= j < i ==> p[j].facts.family != p[i].facts.family
  }

  function Firsts(p: seq<Candidate>, n: nat): seq<nat>
    requires n <= |p|
  {
    if n == 0 then []
    else if First(p, n - 1) then Firsts(p, n - 1) + [n - 1]
    else Firsts(p, n - 1)
  }

  function Others(p: seq<Candidate>, taken: set<Candidate>, n: nat): seq<nat>
    requires n <= |p|
  {
    if n == 0 then []
    else if p[n - 1] !in taken then Others(p, taken, n - 1) + [n - 1]
    else Others(p, taken, n - 1)
  }

  function Take(s: seq<nat>, k: nat): seq<nat> {
    if k <= |s| then s[..k] else s
  }

  predicate Within(s: seq<nat>, n: nat) {
    forall k :: 0 <= k < |s| ==> s[k] < n
  }

  function At(p: seq<Candidate>, s: seq<nat>): set<Candidate>
    requires Within(s, |p|)
  {
    set k | 0 <= k < |s| :: p[s[k]]
  }

  predicate Increasing(s: seq<nat>, n: nat) {
    Within(s, n) && forall k, l :: 0 <= k < l < |s| ==> s[k] < s[l]
  }

  lemma {:induction false} FirstsIncrease(p: seq<Candidate>, n: nat)
    requires n <= |p|
    ensures Increasing(Firsts(p, n), n)
    ensures forall i: nat :: i in Firsts(p, n) <==> i < n && First(p, i)
  {
    if n > 0 {
      FirstsIncrease(p, n - 1);
    }
  }

  lemma {:induction false} OthersIncrease(p: seq<Candidate>, taken: set<Candidate>, n: nat)
    requires n <= |p|
    ensures Increasing(Others(p, taken, n), n)
    ensures forall i: nat :: i in Others(p, taken, n) <==> i < n && p[i] !in taken
  {
    if n > 0 {
      OthersIncrease(p, taken, n - 1);
    }
  }

  lemma {:induction false} FirstsPrefix(p: seq<Candidate>, n: nat, m: nat)
    requires n <= m <= |p|
    ensures Firsts(p, n) <= Firsts(p, m)
    decreases m
  {
    if n < m {
      FirstsPrefix(p, n, m - 1);
    }
  }

  lemma {:induction false} OthersPrefix(p: seq<Candidate>, taken: set<Candidate>, n: nat, m: nat)
    requires n <= m <= |p|
    ensures Others(p, taken, n) <= Others(p, taken, m)
    decreases m
  {
    if n < m {
      OthersPrefix(p, taken, n, m - 1);
    }
  }

  // The best candidate of every build family, in order of preference, while slots last.
  function Leaders(p: seq<Candidate>, maximum: nat): (s: seq<nat>)
    ensures Increasing(s, |p|) && |s| <= maximum
  {
    FirstsIncrease(p, |p|);
    Take(Firsts(p, |p|), maximum)
  }

  // Then the best of the rest.
  function Rest(p: seq<Candidate>, maximum: nat): (s: seq<nat>)
    ensures Increasing(s, |p|) && |s| <= maximum - |Leaders(p, maximum)|
  {
    OthersIncrease(p, At(p, Leaders(p, maximum)), |p|);
    Take(Others(p, At(p, Leaders(p, maximum)), |p|), maximum - |Leaders(p, maximum)|)
  }

  function Chosen(p: seq<Candidate>, maximum: nat): seq<nat> {
    Leaders(p, maximum) + Rest(p, maximum)
  }

  function Families(p: seq<Candidate>, n: nat): set<nat>
    requires n <= |p|
  {
    set k | 0 <= k < n :: p[k].facts.family
  }

  // The two passes over the pending list.
  method Select(p: seq<Candidate>, maximum: nat) returns (picks: seq<nat>)
    ensures picks == Chosen(p, maximum)
  {
    var leaders := SelectLeaders(p, maximum);
    var rest := SelectOthers(p, At(p, leaders), maximum - |leaders|);
    picks := leaders + rest;
  }

  method SelectLeaders(p: seq<Candidate>, maximum: nat) returns (picks: seq<nat>)
    ensures picks == Leaders(p, maximum)
  {
    picks := [];
    var seen: set<nat> := {};
    var n := 0;
    while n < |p| && |picks| < maximum
      invariant n <= |p| && picks == Firsts(p, n) && |picks| <= maximum
      invariant seen == Families(p, n)
    {
      if p[n].facts.family !in seen {
        picks := picks + [n];
      }
      seen := seen + {p[n].facts.family};
      n := n + 1;
    }
    FirstsPrefix(p, n, |p|);
  }

  method SelectOthers(p: seq<Candidate>, taken: set<Candidate>, room: nat) returns (picks: seq<nat>)
    ensures picks == Take(Others(p, taken, |p|), room)
  {
    picks := [];
    var n := 0;
    while n < |p| && |picks| < room
      invariant n <= |p| && |picks| <= room
      invariant picks == Others(p, taken, n)
    {
      if p[n] !in taken {
        picks := picks + [n];
      }
      n := n + 1;
    }
    OthersPrefix(p, taken, n, |p|);
  }

  // ---------- what the selection guarantees ----------

  lemma RestIsNew(p: seq<Candidate>, maximum: nat, i: nat)
    requires i in Rest(p, maximum)
    ensures i < |p| && p[i] !in At(p, Leaders(p, maximum)) && i !in Leaders(p, maximum)
  {
    var leaders := Leaders(p, maximum);
    OthersIncrease(p, At(p, leaders), |p|);
    assert i in Others(p, At(p, leaders), |p|);
    assert forall k :: 0 <= k < |leaders| ==> p[leaders[k]] in At(p, leaders);
  }

  // Nothing is chosen twice, and never more than the slots there are.
  lemma ChosenIsSound(p: seq<Candidate>, maximum: nat)
    ensures Within(Chosen(p, maximum), |p|) && |Chosen(p, maximum)| <= maximum
    ensures forall k, l :: 0 <= k < l < |Chosen(p, maximum)| ==> Chosen(p, maximum)[k] != Chosen(p, maximum)[l]
  {
    var leaders, rest := Leaders(p, maximum), Rest(p, maximum);
    forall l | 0 <= l < |rest|
      ensures rest[l] !in leaders
    {
      RestIsNew(p, maximum, rest[l]);
    }
  }

  lemma {:induction false} IncreasingFits(s: seq<nat>, n: nat)
    requires Increasing(s, n)
    ensures |s| <= n
  {
    if s != [] {
      IncreasingFits(s[..|s| - 1], s[|s| - 1]);
    }
  }

  // Two increasing sequences that share out the numbers below n have n elements between them.
  lemma {:induction false} SharedOut(a: seq<nat>, b: seq<nat>, n: nat)
    requires Increasing(a, n) && Increasing(b, n)
    requires forall i: nat :: i < n ==> (i in a <==> i !in b)
    ensures |a| + |b| == n
    decreases n, 1
  {
    if n == 0 {
      IncreasingFits(a, 0);
      IncreasingFits(b, 0);
    } else {
      if n - 1 in a {
        SharedOutStep(a, b, n);
      } else {
        SharedOutStep(b, a, n);
      }
    }
  }

  lemma {:induction false} SharedOutStep(a: seq<nat>, b: seq<nat>, n: nat)
    requires n > 0 && Increasing(a, n) && Increasing(b, n) && n - 1 in a
    requires forall i: nat :: i < n ==> (i in a <==> i !in b)
    ensures |a| + |b| == n
    decreases n, 0
  {
    var last := |a| - 1;
    assert a[last] == n - 1 by {
      var k :| 0 <= k < |a| && a[k] == n - 1;
    }
    assert forall i :: i in a[..last] <==> i in a && i != n - 1;
    SharedOut(a[..last], b, n - 1);
  }

  // With no candidate listed twice, every slot that can be filled is.
  lemma SelectionFills(p: seq<Candidate>, maximum: nat)
    requires Distinct(p)
    ensures |Chosen(p, maximum)| == Min(maximum, |p|)
  {
    FirstsIncrease(p, |p|);
    var firsts := Firsts(p, |p|);
    IncreasingFits(firsts, |p|);
    if |firsts| < maximum {
      var taken := At(p, firsts);
      OthersIncrease(p, taken, |p|);
      forall i: nat | i < |p|
        ensures i in firsts <==> p[i] in taken
      {
        if i in firsts {
          var k :| 0 <= k < |firsts| && firsts[k] == i;
          assert p[firsts[k]] in taken;
        }
      }
      SharedOut(firsts, Others(p, taken, |p|), |p|);
    }
  }

  // The chosen candidates come from as many build families as there are slots for, whether or
  // not a candidate is listed twice.
  lemma SelectionSpreads(p: seq<Candidate>, maximum: nat)
    ensures Within(Chosen(p, maximum), |p|)
    ensures |FamiliesAt(p, Leaders(p, maximum))| == Min(maximum, |Families(p, |p|)|)
    ensures maximum >= |Families(p, |p|)| ==> FamiliesAt(p, Leaders(p, maximum)) == Families(p, |p|)
    ensures FamiliesAt(p, Chosen(p, maximum)) == FamiliesAt(p, Leaders(p, maximum))
  {
    ChosenIsSound(p, maximum);
    FamiliesOfFirsts(p, |p|);
    FirstsIncrease(p, |p|);
    var leaders := Leaders(p, maximum);
    LeadersDiffer(p, leaders);
    var leading := FamiliesAt(p, leaders);
    if |Firsts(p, |p|)| < maximum {
      var chosen := Chosen(p, maximum);
      assert leading == Families(p, |p|);
      assert forall k :: 0 <= k < |chosen| ==> p[chosen[k]].facts.family in Families(p, |p|);
      assert forall k :: 0 <= k < |leaders| ==> chosen[k] == leaders[k];
    } else {
      assert Rest(p, maximum) == [];
      assert Chosen(p, maximum) == leaders;
      LeadersDiffer(p, Firsts(p, |p|));
    }
  }

  function FamiliesAt(p: seq<Candidate>, s: seq<nat>): set<nat>
    requires Within(s, |p|)
  {
    set k | 0 <= k < |s| :: p[s[k]].facts.family
  }

  lemma FamiliesAppend(p: seq<Candidate>, s: seq<nat>, i: nat)
    requires Within(s, |p|) && i < |p|
    ensures FamiliesAt(p, s + [i]) == FamiliesAt(p, s) + {p[i].facts.family}
  {
    var t := s + [i];
    assert forall k :: 0 <= k < |s| ==> t[k] == s[k];
    assert t[|s|] == i;
  }

  lemma {:induction false} LeadersDiffer(p: seq<Candidate>, s: seq<nat>)
    requires Increasing(s, |p|) && forall k :: 0 <= k < |s| ==> First(p, s[k])
    ensures |FamiliesAt(p, s)| == |s|
  {
    if s != [] {
      var front, last := s[..|s| - 1], s[|s| - 1];
      LeadersDiffer(p, front);
      assert s == front + [last];
      FamiliesAppend(p, front, last);
    }
  }

  lemma FamiliesStep(p: seq<Candidate>, n: nat)
    requires n < |p|
    ensures Families(p, n + 1) == Families(p, n) + {p[n].facts.family}
    ensures !First(p, n) ==> p[n].facts.family in Families(p, n)
  {
  }

  lemma {:induction false} FamiliesOfFirsts(p: seq<Candidate>, n: nat)
    requires n <= |p|
    ensures Within(Firsts(p, n), |p|) && FamiliesAt(p, Firsts(p, n)) == Families(p, n)
  {
    if n > 0 {
      FamiliesOfFirsts(p, n - 1);
      FirstsIncrease(p, n);
      var before, now := Firsts(p, n - 1), Firsts(p, n);
      FamiliesStep(p, n - 1);
      if First(p, n - 1) {
        assert now == before + [n - 1];
        FamiliesAppend(p, before, n - 1);
      } else {
        assert now == before;
      }
    }
  }

  // The one chosen first from a family is its best.
  lemma LeaderIsBest(p: seq<Candidate>, maximum: nat, i: nat, j: nat)
    requires Ordered(p) && i in Leaders(p, maximum) && j < |p|
    requires p[j].facts.family == p[i].facts.family
    ensures !Precedes(p[j].facts, p[i].facts)
  {
    FirstsIncrease(p, |p|);
    assert First(p, i);
    PrecedesAsymmetric(p[i].facts, p[j].facts);
  }

  // ---------- candidates the funnel loses ----------

  // A candidate that was not chosen at position i, but was chosen at another position.
  predicate Shadowed(p: seq<Candidate>, chosen: seq<nat>, i: nat)
    requires Within(chosen, |p|) && i < |p|
  {
    i !in chosen && p[i] in At(p, chosen)
  }

  // How many of the first n pending entries are neither chosen nor counted as passed over.
  function Lost(p: seq<Candidate>, chosen: seq<nat>, n: nat): nat
    requires Within(chosen, |p|) && n <= |p|
  {
    if n == 0 then 0 else Lost(p, chosen, n - 1) + if Shadowed(p, chosen, n - 1) then 1 else 0
  }

  function PassedOver(p: seq<Candidate>, chosen: seq<nat>, n: nat): nat
    requires Within(chosen, |p|) && n <= |p|
  {
    if n == 0 then 0 else PassedOver(p, chosen, n - 1) + if p[n - 1] !in At(p, chosen) then 1 else 0
  }

  function CountIn(s: seq<nat>, n: nat): nat {
    if n == 0 then 0 else CountIn(s, n - 1) + if n - 1 in s then 1 else 0
  }

  lemma {:induction false} CountInAll(s: seq<nat>, n: nat)
    requires Within(s, n) && forall k, l :: 0 <= k < l < |s| ==> s[k] != s[l]
    ensures CountIn(s, n) == |s|
  {
    if s == [] {
      CountInEmpty(n);
    } else {
      CountInAll(s[..|s| - 1], n);
      CountInAppend(s[..|s| - 1], s[|s| - 1], n);
      assert s == s[..|s| - 1] + [s[|s| - 1]];
    }
  }

  lemma {:induction false} CountInEmpty(n: nat)
    ensures CountIn([], n) == 0
  {
    if n > 0 {
      CountInEmpty(n - 1);
    }
  }

  lemma {:induction false} CountInAppend(s: seq<nat>, i: nat, n: nat)
    requires i !in s
    ensures CountIn(s + [i], n) == CountIn(s, n) + if i < n then 1 else 0
  {
    if n > 0 {
      CountInAppend(s, i, n - 1);
    }
  }

  // Every pending candidate is chosen, counted against the attempt limit, or lost.
  lemma {:induction false} PendingSplits(p: seq<Candidate>, chosen: seq<nat>, n: nat)
    requires Within(chosen, |p|) && n <= |p|
    ensures CountIn(chosen, n) + PassedOver(p, chosen, n) + Lost(p, chosen, n) == n
  {
    if n > 0 {
      PendingSplits(p, chosen, n - 1);
      if n - 1 in chosen {
        var k :| 0 <= k < |chosen| && chosen[k] == n - 1;
        assert p[chosen[k]] in At(p, chosen);
      }
    }
  }

  lemma PendingShared(p: seq<Candidate>, maximum: nat)
    ensures Within(Chosen(p, maximum), |p|)
    ensures var chosen := Chosen(p, maximum);
            |chosen| + PassedOver(p, chosen, |p|) + Lost(p, chosen, |p|) == |p|
  {
    ChosenIsSound(p, maximum);
    CountInAll(Chosen(p, maximum), |p|);
    PendingSplits(p, Chosen(p, maximum), |p|);
  }

  lemma {:induction false} LostCounts(p: seq<Candidate>, chosen: seq<nat>, n: nat)
    requires Within(chosen, |p|) && n <= |p|
    ensures Lost(p, chosen, n) == 0 <==> forall i: nat :: i < n ==> !Shadowed(p, chosen, i)
  {
    if n > 0 {
      LostCounts(p, chosen, n - 1);
    }
  }

  lemma DistinctHasNoShadow(p: seq<Candidate>, chosen: seq<nat>, i: nat)
    requires Distinct(p) && Within(chosen, |p|) && i < |p|
    ensures !Shadowed(p, chosen, i)
  {
    if p[i] in At(p, chosen) {
      var k :| 0 <= k < |chosen| && p[chosen[k]] == p[i];
      assert chosen[k] == i;
    }
  }

  lemma DistinctLoseNothing(p: seq<Candidate>, maximum: nat)
    requires Distinct(p)
    ensures Within(Chosen(p, maximum), |p|) && Lost(p, Chosen(p, maximum), |p|) == 0
  {
    ChosenIsSound(p, maximum);
    var chosen := Chosen(p, maximum);
    LostCounts(p, chosen, |p|);
    forall i: nat | i < |p|
      ensures !Shadowed(p, chosen, i)
    {
      DistinctHasNoShadow(p, chosen, i);
    }
  }

  // A candidate that leads its family and is listed again is lost, whatever the limit.
  lemma ListedAgainIsLost(p: seq<Candidate>, maximum: nat, i: nat, again: nat)
    requires i in Leaders(p, maximum) && i < again < |p| && p[again] == p[i]
    ensures Within(Chosen(p, maximum), |p|) && Lost(p, Chosen(p, maximum), |p|) > 0
  {
    var leaders, chosen := Leaders(p, maximum), Chosen(p, maximum);
    ChosenIsSound(p, maximum);
    FirstsIncrease(p, |p|);
    var k :| 0 <= k < |leaders| && leaders[k] == i;
    assert chosen[k] == i;
    assert p[leaders[k]] in At(p, leaders) && p[chosen[k]] in At(p, chosen);
    assert again !in leaders by {
      assert !First(p, again);
    }
    if again in Rest(p, maximum) {
      RestIsNew(p, maximum, again);
    }
    assert Shadowed(p, chosen, again);
    LostCounts(p, chosen, |p|);
  }

  predicate LosesNone(p: seq<Candidate>, maximum: nat) {
    ChosenIsSound(p, maximum);
    Lost(p, Chosen(p, maximum), |p|) == 0
  }

  lemma ShadowIsLost(p: seq<Candidate>, maximum: nat, i: nat)
    requires Within(Chosen(p, maximum), |p|) && i < |p| && Shadowed(p, Chosen(p, maximum), i)
    ensures !LosesNone(p, maximum)
  {
    LostCounts(p, Chosen(p, maximum), |p|);
  }

  lemma LeadsNoFamily(p: seq<Candidate>, i: nat)
    requires i < |p| && forall f: nat :: f <= i && First(p, f) ==> p[f] != p[i]
    ensures Within(Firsts(p, |p|), |p|) && p[i] !in At(p, Firsts(p, |p|))
  {
    FirstsIncrease(p, |p|);
    var firsts := Firsts(p, |p|);
    forall k | 0 <= k < |firsts|
      ensures p[firsts[k]] != p[i]
    {
      assert firsts[k] in firsts;
      assert First(p, firsts[k]);
    }
  }

  // With room for all leaders and k more, the first k of the others are chosen.
  lemma ChosenBeyondLeaders(p: seq<Candidate>, k: nat)
    requires Within(Firsts(p, |p|), |p|) && k <= |Others(p, At(p, Firsts(p, |p|)), |p|)| && k > 0
    ensures Chosen(p, |Firsts(p, |p|)| + k) == Firsts(p, |p|) + Others(p, At(p, Firsts(p, |p|)), |p|)[..k]
  {
    assert Leaders(p, |Firsts(p, |p|)| + k) == Firsts(p, |p|);
  }

  lemma LaterIsNotAmong(p: seq<Candidate>, firsts: seq<nat>, others: seq<nat>, k: nat, later: nat)
    requires Within(firsts, |p|) && Increasing(others, |p|) && k < |others|
    requires others[k] < later < |p| && p[later] !in At(p, firsts)
    ensures later !in firsts + others[..k + 1]
  {
    forall l | 0 <= l < |firsts|
      ensures firsts[l] != later
    {
      assert p[firsts[l]] in At(p, firsts);
    }
    assert forall l :: 0 <= l <= k ==> others[l] <= others[k];
  }

  // Listed twice and leading no family: the limit that reaches the first copy loses the second.
  lemma SecondCopyIsLost(p: seq<Candidate>, i: nat, again: nat) returns (maximum: nat)
    requires i < again < |p| && p[again] == p[i]
    requires forall f: nat :: f <= i && First(p, f) ==> p[f] != p[i]
    ensures !LosesNone(p, maximum)
  {
    LeadsNoFamily(p, i);
    var firsts := Firsts(p, |p|);
    var taken := At(p, firsts);
    OthersIncrease(p, taken, |p|);
    var others := Others(p, taken, |p|);
    var k: nat :| k < |others| && others[k] == i;
    maximum := |firsts| + k + 1;
    ChosenBeyondLeaders(p, k + 1);
    ChosenIsSound(p, maximum);
    var chosen := Chosen(p, maximum);
    assert chosen[|firsts| + k] == i;
    LaterIsNotAmong(p, firsts, others, k, again);
    assert p[chosen[|firsts| + k]] in At(p, chosen);
    ShadowIsLost(p, maximum, again);
  }

  // A guard for other callers, since the scan lists no candidate twice: whatever the attempt
  // limit nothing is lost exactly when no candidate is listed twice.
  lemma LosesNothingExactly(p: seq<Candidate>)
    ensures (forall maximum :: LosesNone(p, maximum)) <==> Distinct(p)
  {
    if Distinct(p) {
      forall maximum
        ensures LosesNone(p, maximum)
      {
        DistinctLoseNothing(p, maximum);
      }
    } else {
      var i: nat, again: nat :| i < again < |p| && p[i] == p[again];
      if f: nat :| f <= i && First(p, f) && p[f] == p[i] {
        FirstsIncrease(p, |p|);
        IncreasingFits(Firsts(p, |p|), |p|);
        ListedAgainIsLost(p, |p|, f, again);
        assert !LosesNone(p, |p|);
      } else {
        var maximum := SecondCopyIsLost(p, i, again);
      }
    }
  }

  // ---------- the probes ----------

  function Slots(s: Settings, requested: Option<int>): nat {
    Min(8, if requested.Some? then Max(0, requested.value) else Max(0, s.perScan))
  }

  // The books of the probing loop: `ended` candidates have ended since the selection,
  // `attempted` of them by a probe.
  ghost predicate Probed(before: Funnel, after: Funnel, ended: nat, attempted: nat) {
    && Closes(before, after, ended)
    && Get(after, Attempted) == Get(before, Attempted) + attempted
  }

  lemma ProbedMore(before: Funnel, f: Funnel, ended: nat, attempted: nat, o: Outcome, n: nat)
    requires Probed(before, f, ended, attempted) && Ends(o)
    ensures Probed(before, Record(f, o, n), ended + n, if o.Attempted? then attempted + n else attempted)
  {
    RecordTerminal(f, o, n);
  }

  // Whether a probe passes with the evidence expected for its commit, and how many seconds are
  // left before each probe when the scan has a budget.
  datatype World = World(passes: nat -> bool, budgeted: bool, remaining: nat -> int, stopAfterSuccess: bool)

  // The candidates among the first n chosen whose probe passes.
  ghost function ProvenBy(chosen: seq<Candidate>, w: World, n: nat): set<Candidate>
    requires n <= |chosen|
  {
    if n == 0 then {} else ProvenBy(chosen, w, n - 1) + if w.passes(n - 1) then {chosen[n - 1]} else {}
  }

  lemma {:induction false} ProvenByPasses(chosen: seq<Candidate>, w: World, n: nat, c: Candidate)
    requires n <= |chosen|
    ensures c in ProvenBy(chosen, w, n) <==> exists k :: 0 <= k < n && chosen[k] == c && w.passes(k)
  {
    if n > 0 {
      ProvenByPasses(chosen, w, n - 1, c);
    }
  }

  function Members(cs: seq<Candidate>): set<Candidate> {
    set c | c in cs
  }

  // A candidate is compatible once a probe of its commit has passed; otherwise it is as it was.
  twostate predicate ProvenOnly(chosen: set<Candidate>, new proven: set<Candidate>)
    reads chosen
  {
    forall c :: c in chosen ==> if c in proven then c.Compatible() else c.architecture == old(c.architecture)
  }

  // Probes the chosen candidates until time or the first success ends it. All of them end.
  method Probe(chosen: seq<Candidate>, s: Settings, w: World, before: Funnel)
    returns (attempted: nat, passed: nat, funnel: Funnel, ghost proven: set<Candidate>)
    modifies Members(chosen)
    ensures attempted <= |chosen| && passed <= attempted
    ensures Probed(before, funnel, |chosen|, attempted)
    ensures proven == ProvenBy(chosen, w, attempted) <= Members(chosen) && ProvenOnly(Members(chosen), proven)
    ensures forall k :: 0 <= k < attempted && w.budgeted ==> w.remaining(k) >= 60
    ensures attempted < |chosen| ==> (w.budgeted && w.remaining(attempted) < 60) || (w.stopAfterSuccess && passed > 0)
  {
    attempted, passed, funnel, proven := 0, 0, before, {};
    var left := TimeBudget;
    while attempted < |chosen| && left.TimeBudget? && !(w.budgeted && w.remaining(attempted) < 60)
      invariant attempted <= |chosen| && passed <= attempted
      invariant Probed(before, funnel, attempted, attempted)
      invariant proven == ProvenBy(chosen, w, attempted) <= Members(chosen) && ProvenOnly(Members(chosen), proven)
      invariant forall k :: 0 <= k < attempted && w.budgeted ==> w.remaining(k) >= 60
      invariant left.TimeBudget? || (left.StoppedAfterSuccess? && w.stopAfterSuccess && passed > 0)
      decreases |chosen| - attempted
    {
      var c := chosen[attempted];
      var final := !s.aiMayChangeScore && c.facts.score >= s.minimumScore;
      ProbedMore(before, funnel, attempted, attempted, Attempted, 1);
      funnel := Record(funnel, Attempted, 1);
      if w.passes(attempted) {
        c.Accept();
        proven := proven + {c};
        passed := passed + 1;
        left := if w.stopAfterSuccess && final then StoppedAfterSuccess else TimeBudget;
      }
      attempted := attempted + 1;
    }
    ProbedMore(before, funnel, attempted, attempted, left, |chosen| - attempted);
    funnel := Record(funnel, left, |chosen| - attempted);
  }

  // ---------- the whole preflight ----------

  function Pick(p: seq<Candidate>, picks: seq<nat>): seq<Candidate>
    requires Within(picks, |p|)
  {
    seq(|picks|, k requires 0 <= k < |picks| => p[picks[k]])
  }

  method CountPassedOver(p: seq<Candidate>, chosen: seq<nat>) returns (count: nat)
    requires Within(chosen, |p|)
    ensures count == PassedOver(p, chosen, |p|)
  {
    count := 0;
    var ids := At(p, chosen);
    for n := 0 to |p|
      invariant count == PassedOver(p, chosen, n)
    {
      if p[n] !in ids {
        count := count + 1;
      }
    }
  }

  lemma PickMembers(p: seq<Candidate>, picks: seq<nat>)
    requires Within(picks, |p|)
    ensures Members(Pick(p, picks)) <= Members(p)
  {
  }

  // The books of choosing and probing: all the pending candidates have ended but the lost ones.
  ghost predicate Spent(before: Funnel, after: Funnel, p: seq<Candidate>, maximum: nat, attempted: nat, lost: nat) {
    && Within(Chosen(p, maximum), |p|)
    && lost == Lost(p, Chosen(p, maximum), |p|)
    && lost <= |p| && Probed(before, after, |p| - lost, attempted)
  }

  lemma SpentAll(before: Funnel, limited: Funnel, after: Funnel, p: seq<Candidate>, maximum: nat, attempted: nat)
    requires Within(Chosen(p, maximum), |p|)
    requires Probed(before, limited, PassedOver(p, Chosen(p, maximum), |p|), 0)
    requires Probed(limited, after, |Chosen(p, maximum)|, attempted)
    ensures Spent(before, after, p, maximum, attempted, Lost(p, Chosen(p, maximum), |p|))
  {
    PendingShared(p, maximum);
  }

  // Chooses from the ordered pending list and probes.
  method Spend(p: seq<Candidate>, s: Settings, w: World, maximum: nat, before: Funnel)
    returns (attempted: nat, passed: nat, funnel: Funnel, ghost proven: set<Candidate>, ghost lost: nat)
    modifies Members(p)
    ensures Spent(before, funnel, p, maximum, attempted, lost)
    ensures attempted <= maximum && passed <= attempted
    ensures ProvenOnly(Members(p), proven)
    ensures forall c :: c in proven ==> c in Members(p) && exists k :: 0 <= k < attempted && w.passes(k)
  {
    ChosenIsSound(p, maximum);
    var picks := Select(p, maximum);
    PickMembers(p, picks);
    var limit := CountPassedOver(p, picks);
    ProbedMore(before, before, 0, 0, AttemptLimit, limit);
    var limited := Record(before, AttemptLimit, limit);
    attempted, passed, funnel, proven := Probe(Pick(p, picks), s, w, limited);
    forall c | c in proven
      ensures c in Members(p) && exists k :: 0 <= k < attempted && w.passes(k)
    {
      ProvenByPasses(Pick(p, picks), w, attempted, c);
    }
    lost := Lost(p, picks, |p|);
    SpentAll(before, limited, funnel, p, maximum, attempted);
  }

  lemma SortedMembers(cs: seq<Candidate>)
    ensures |Sorted(cs)| == |cs| && Members(Sorted(cs)) == Members(cs)
  {
    SortedKeeps(cs);
    assert |Sorted(cs)| == |multiset(Sorted(cs))| && |cs| == |multiset(cs)|;
    assert forall c :: c in Members(Sorted(cs)) <==> c in multiset(Sorted(cs));
    assert forall c :: c in Members(cs) <==> c in multiset(cs);
  }

  lemma SortedDistinct(cs: seq<Candidate>)
    requires Distinct(cs)
    ensures Distinct(Sorted(cs))
  {
    SortedKeeps(cs);
    DistinctByCount(cs);
    DistinctFromCount(Sorted(cs));
  }

  // Everything after the filter.
  method Schedule(pending: seq<Candidate>, ready: bool, s: Settings, w: World, requested: Option<int>, before: Funnel)
    returns (attempted: nat, passed: nat, funnel: Funnel, ghost proven: set<Candidate>, ghost lost: nat)
    modifies Members(pending)
    ensures lost <= |pending| && Probed(before, funnel, |pending| - lost, attempted)
    ensures Distinct(pending) ==> lost == 0
    ensures attempted <= Slots(s, requested) && passed <= attempted
    ensures ProvenOnly(Members(pending), proven)
    ensures forall c :: c in proven ==> c in Members(pending) && exists k :: 0 <= k < attempted && w.passes(k)
  {
    if w.stopAfterSuccess && !s.aiMayChangeScore && ready {
      ProbedMore(before, before, 0, 0, StoppedAfterCachedSuccess, |pending|);
      return 0, 0, Record(before, StoppedAfterCachedSuccess, |pending|), {}, 0;
    }
    var maximum := Slots(s, requested);
    if maximum == 0 {
      ProbedMore(before, before, 0, 0, AttemptLimit, |pending|);
      return 0, 0, Record(before, AttemptLimit, |pending|), {}, 0;
    }
    var p := Sorted(pending);
    SortedMembers(pending);
    if Distinct(pending) {
      SortedDistinct(pending);
      DistinctLoseNothing(p, maximum);
    }
    attempted, passed, funnel, proven, lost := Spend(p, s, w, maximum, before);
  }

  // The final books of a preflight.
  ghost predicate Accounted(before: Funnel, after: Funnel, considered: nat, attempted: nat, lost: nat) {
    && Get(after, Considered) == Get(before, Considered) + considered
    && Terminal(after) + lost == Terminal(before) + considered
    && Get(after, PreDiscoveryCooldown) == Get(before, PreDiscoveryCooldown)
    && Get(after, Attempted) == Get(before, Attempted) + attempted
  }

  lemma AccountedAll(before: Funnel, filtered: Funnel, after: Funnel, considered: nat, closed: nat, passed: nat,
                     attempted: nat, lost: nat)
    requires closed + lost <= considered
    requires Filtered(Record(before, Considered, considered), filtered, closed, passed)
    requires Probed(filtered, after, considered - closed - lost, attempted)
    ensures Accounted(before, after, considered, attempted, lost)
  {
    RecordTerminal(before, Considered, considered);
  }

  // Of candidates listed once each, every considered one ends in exactly one way; and one that
  // ends up compatible was proved so by a stored or a fresh probe of its commit.
  method Preflight(candidates: seq<Candidate>, s: Settings, w: World, requested: Option<int>, before: Funnel)
    returns (attempted: nat, passed: nat, funnel: Funnel, ghost proven: set<Candidate>, ghost lost: nat)
    modifies Considering(candidates)
    ensures Accounted(before, funnel, CountConsidered(candidates, |candidates|), attempted, lost)
    ensures Distinct(candidates) ==>
              lost == 0 && Terminal(funnel) == Terminal(before) + CountConsidered(candidates, |candidates|)
    ensures attempted <= Slots(s, requested)
    ensures s.enabled && s.aarch64 ==> forall c :: c in candidates && IsConsidered(c.facts) ==> (c.Compatible() <==> c in proven)
    ensures forall c :: c in proven ==> c.facts.cache == Passing(true) || exists k :: 0 <= k < attempted && w.passes(k)
    ensures !(s.enabled && s.aarch64) ==> attempted == 0 && passed == 0 && forall c :: c in candidates ==> unchanged(c)
  {
    var considered := CountConsidered(candidates, |candidates|);
    var entered := Record(before, Considered, considered);
    if !s.enabled || !s.aarch64 {
      assert Filtered(entered, entered, 0, 0);
      ProbedMore(entered, entered, 0, 0, Unavailable, considered);
      AccountedAll(before, entered, Record(entered, Unavailable, considered), considered, 0, 0, 0, 0);
      return 0, 0, Record(entered, Unavailable, considered), {}, 0;
    }
    var pending, ready, filtered;
    pending, passed, ready, filtered, proven := Filter(candidates, s, entered);
    if Distinct(candidates) {
      PendingDistinct(candidates, pending);
    }
    ghost var cached := proven;
    assert Members(pending) <= Considering(candidates);
    var more;
    attempted, more, funnel, proven, lost := Schedule(pending, ready, s, w, requested, filtered);
    AccountedAll(before, filtered, funnel, considered, considered - |pending|, passed, attempted, lost);
    proven := proven + cached;
    passed := passed + more;
  }

  lemma PendingDistinct(candidates: seq<Candidate>, pending: seq<Candidate>)
    requires Distinct(candidates) && Appears(candidates, pending)
    ensures Distinct(pending)
  {
    var where: seq<nat> :| Traces(candidates, pending, where, |candidates|);
    forall i, j | 0 <= i < j < |pending|
      ensures pending[i] != pending[j]
    {
      assert candidates[where[i]] != candidates[where[j]];
    }
  }

  lemma {:induction false} DistinctByCount(cs: seq<Candidate>)
    requires Distinct(cs)
    ensures forall c :: c in cs ==> multiset(cs)[c] == 1
  {
    if cs != [] {
      DistinctByCount(cs[1..]);
      assert cs == [cs[0]] + cs[1..];
      assert cs[0] !in cs[1..];
    }
  }

  lemma {:induction false} DistinctFromCount(cs: seq<Candidate>)
    requires forall c :: c in cs ==> multiset(cs)[c] == 1
    ensures Distinct(cs)
  {
    if cs != [] {
      var rest := cs[1..];
      assert cs == [cs[0]] + rest;
      assert forall c :: c in rest ==> c in cs && multiset(rest)[c] > 0;
      DistinctFromCount(rest);
      assert cs[0] !in rest;
    }
  }
}
