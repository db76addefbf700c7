// The numbered excerpt of a long harness that the harness review reads: which lines it shows,
// and that it accounts for every line it does not show.
module SourceExcerpt {
  import opened Basics

  const HEADER := 60

  // A priority pattern: the lines it matches, and how many lines around a match are wanted.
  datatype Pattern = Pattern(matches: nat -> bool, radius: nat)

  // ---------- choosing the lines ----------

  function Lines(n: nat): (lines: set<nat>)
    ensures forall i: nat :: i in lines <==> i < n
  {
    if n == 0 then {} else Lines(n - 1) + {n - 1}
  }

  function Header(n: nat): set<nat> {
    Lines(Min(HEADER, n))
  }

  // Between what was chosen before and what is asked for; all of it unless the limit is reached.
  ghost predicate Fills(before: set<nat>, asked: set<nat>, after: set<nat>, limit: nat) {
    && before <= after <= before + asked && |after| <= Max(|before|, limit)
    && (|after| < limit ==> asked <= after)
  }

  function Add(chosen: set<nat>, i: int, n: nat, limit: nat): set<nat> {
    if i < 0 || i >= n || |chosen| >= limit then chosen else chosen + {i as nat}
  }

  function Window(m: nat, distance: nat, n: nat): set<nat> {
    set i | i in Lines(n) && m - distance <= i <= m + distance
  }

  lemma FillsMore(before: set<nat>, asked: set<nat>, middle: set<nat>, more: set<nat>, after: set<nat>, limit: nat)
    requires Fills(before, asked, middle, limit) && Fills(middle, more, after, limit)
    ensures Fills(before, asked + more, after, limit)
  {
    if |after| < limit {
      SubsetSize(middle, after);
    }
  }

  lemma FillsNothing(chosen: set<nat>, asked: set<nat>, limit: nat)
    requires |chosen| >= limit || asked == {}
    ensures Fills(chosen, asked, chosen, limit)
  {
  }

  function One(i: int, n: nat): set<nat> {
    if 0 <= i < n then {i as nat} else {}
  }

  lemma AddFills(chosen: set<nat>, i: int, n: nat, limit: nat)
    ensures Fills(chosen, One(i, n), Add(chosen, i, n, limit), limit)
  {
    if 0 <= i < n && i as nat in chosen {
      assert chosen + {i as nat} == chosen;
    }
  }

  lemma WindowWidens(m: nat, d: nat, n: nat)
    requires m < n && d > 0
    ensures Window(m, d, n) == Window(m, d - 1, n) + One(m - d, n) + One(m + d, n)
  {
  }

  // Either all of these lines were chosen, or the limit was reached within them.
  ghost predicate Settled(lines: set<nat>, chosen: set<nat>, limit: nat) {
    lines <= chosen || (|chosen| >= limit && chosen <= lines)
  }

  lemma FilledIsSettled(before: set<nat>, asked: set<nat>, after: set<nat>, limit: nat)
    requires Fills(before, asked, after, limit)
    ensures Settled(before + asked, after, limit)
  {
  }

  lemma SettledStays(lines: set<nat>, chosen: set<nat>, more: set<nat>, after: set<nat>, limit: nat)
    requires Settled(lines, chosen, limit) && Fills(chosen, more, after, limit)
    ensures Settled(lines, after, limit)
  {
    if !(lines <= chosen) {
      assert after == chosen + (after - chosen);
    }
  }

  // What is settled counting from a set that was filled is settled counting from its beginning.
  lemma SettledBefore(before: set<nat>, asked: set<nat>, chosen: set<nat>, lines: set<nat>, more: set<nat>, after: set<nat>, limit: nat)
    requires Fills(before, asked, chosen, limit) && Fills(chosen, more, after, limit)
    requires Settled(chosen + lines, after, limit)
    ensures Settled(before + asked + lines, after, limit)
  {
    if |chosen| < limit {
      assert chosen == before + asked;
    } else {
      assert after == chosen + (after - chosen);
    }
  }

  // Nearer lines of a window first.
  ghost predicate NearestFirst(chosen: set<nat>, m: nat, distance: nat, n: nat, after: set<nat>, limit: nat) {
    forall d: nat :: d <= distance ==> Settled(chosen + Window(m, d, n), after, limit)
  }

  // Adds a window around one match, nearest lines first.
  method AddWindow(chosen: set<nat>, m: nat, radius: nat, n: nat, limit: nat) returns (after: set<nat>)
    requires m < n
    ensures Fills(chosen, Window(m, radius, n), after, limit)
    ensures NearestFirst(chosen, m, radius, n, after, limit)
  {
    AddFills(chosen, m, n, limit);
    after := Add(chosen, m, n, limit);
    assert Window(m, 0, n) == One(m, n);
    FilledIsSettled(chosen, Window(m, 0, n), after, limit);
    for d := 1 to radius + 1
      invariant Fills(chosen, Window(m, d - 1, n), after, limit)
      invariant NearestFirst(chosen, m, d - 1, n, after, limit)
    {
      ghost var held := after;
      after := AddBoth(chosen, after, m, d, n, limit);
      FilledIsSettled(chosen, Window(m, d, n), after, limit);
      forall e: nat | e < d
        ensures Settled(chosen + Window(m, e, n), after, limit)
      {
        SettledStays(chosen + Window(m, e, n), held, One(m - d, n) + One(m + d, n), after, limit);
      }
    }
  }

  method AddBoth(ghost chosen: set<nat>, middle: set<nat>, m: nat, d: nat, n: nat, limit: nat) returns (after: set<nat>)
    requires m < n && d > 0 && Fills(chosen, Window(m, d - 1, n), middle, limit)
    ensures Fills(chosen, Window(m, d, n), after, limit)
    ensures Fills(middle, One(m - d, n) + One(m + d, n), after, limit)
  {
    ghost var narrow := Window(m, d - 1, n);
    AddFills(middle, m - d, n, limit);
    after := Add(middle, m - d, n, limit);
    FillsMore(chosen, narrow, middle, One(m - d, n), after, limit);
    ghost var held := after;
    AddFills(after, m + d, n, limit);
    after := Add(after, m + d, n, limit);
    FillsMore(middle, One(m - d, n), held, One(m + d, n), after, limit);
    FillsMore(chosen, narrow + One(m - d, n), held, One(m + d, n), after, limit);
    WindowWidens(m, d, n);
  }

  // The windows around the first j matches of one pattern.
  function Windows(p: Pattern, n: nat, j: nat): set<nat>
    requires j <= n
  {
    if j == 0 then {} else if p.matches(j - 1) then Windows(p, n, j - 1) + Window(j - 1, p.radius, n) else Windows(p, n, j - 1)
  }

  lemma {:induction false} WindowsAreWanted(p: Pattern, n: nat, j: nat, i: nat)
    requires j <= n
    ensures i in Windows(p, n, j) <==> i < n && exists m :: 0 <= m < j && p.matches(m) && m - p.radius <= i <= m + p.radius
  {
    if j > 0 {
      WindowsAreWanted(p, n, j - 1, i);
    }
  }

  // Earlier matches of a pattern first.
  ghost predicate MatchesInOrder(chosen: set<nat>, p: Pattern, n: nat, j: nat, after: set<nat>, limit: nat)
    requires j <= n
  {
    forall m: nat, d: nat :: m < j && p.matches(m) && d <= p.radius ==>
      Settled(chosen + Windows(p, n, m) + Window(m, d, n), after, limit)
  }

  method AddPattern(chosen: set<nat>, p: Pattern, n: nat, limit: nat) returns (after: set<nat>)
    ensures Fills(chosen, Windows(p, n, n), after, limit)
    ensures MatchesInOrder(chosen, p, n, n, after, limit)
  {
    after := chosen;
    FillsNothing(chosen, {}, limit);
    for j := 0 to n
      invariant Fills(chosen, Windows(p, n, j), after, limit)
      invariant MatchesInOrder(chosen, p, n, j, after, limit)
    {
      ghost var held := after;
      if p.matches(j) {
        after := AddWindow(after, j, p.radius, n, limit);
        FillsMore(chosen, Windows(p, n, j), held, Window(j, p.radius, n), after, limit);
        NextMatch(chosen, p, n, j, held, after, limit);
      }
    }
  }

  lemma NextMatch(chosen: set<nat>, p: Pattern, n: nat, j: nat, held: set<nat>, after: set<nat>, limit: nat)
    requires j < n && p.matches(j) && Fills(chosen, Windows(p, n, j), held, limit)
    requires Fills(held, Window(j, p.radius, n), after, limit) && NearestFirst(held, j, p.radius, n, after, limit)
    requires MatchesInOrder(chosen, p, n, j, held, limit)
    ensures MatchesInOrder(chosen, p, n, j + 1, after, limit)
  {
    forall m: nat, d: nat | m <= j && p.matches(m) && d <= p.radius
      ensures Settled(chosen + Windows(p, n, m) + Window(m, d, n), after, limit)
    {
      if m < j {
        SettledStays(chosen + Windows(p, n, m) + Window(m, d, n), held, Window(j, p.radius, n), after, limit);
      } else {
        SettledBefore(chosen, Windows(p, n, j), held, Window(j, d, n), Window(j, p.radius, n), after, limit);
      }
    }
  }

  ghost function AllWindows(ps: seq<Pattern>, n: nat, k: nat): set<nat>
    requires k <= |ps|
  {
    if k == 0 then {} else AllWindows(ps, n, k - 1) + Windows(ps[k - 1], n, n)
  }

  // A line is asked for when some pattern matches within its radius.
  lemma {:induction false} AllWindowsAreWanted(ps: seq<Pattern>, n: nat, k: nat, i: nat)
    requires k <= |ps|
    ensures i in AllWindows(ps, n, k) <==>
              i < n && exists q, m :: 0 <= q < k && 0 <= m < n && ps[q].matches(m) && m - ps[q].radius <= i <= m + ps[q].radius
  {
    if k > 0 {
      AllWindowsAreWanted(ps, n, k - 1, i);
      WindowsAreWanted(ps[k - 1], n, n, i);
    }
  }

  // What is asked for up to distance d from match m of pattern q: the header, every window of the
  // patterns before, those of the matches before, and the window so far.
  ghost function AskedUpTo(ps: seq<Pattern>, n: nat, q: nat, m: nat, d: nat): set<nat>
    requires q < |ps| && m < n
  {
    Header(n) + AllWindows(ps, n, q) + Windows(ps[q], n, m) + Window(m, d, n)
  }

  // Earlier patterns first, then earlier matches, then nearer lines.
  ghost predicate InPriority(ps: seq<Pattern>, n: nat, k: nat, chosen: set<nat>, limit: nat)
    requires k <= |ps|
  {
    forall q: nat, m: nat, d: nat :: q < k && m < n && ps[q].matches(m) && d <= ps[q].radius ==>
      Settled(AskedUpTo(ps, n, q, m, d), chosen, limit)
  }

  // The chosen lines: the header and, pattern by pattern, the lines around every match, up to the
  // limit. Below the limit nothing asked for is missing, nothing else is ever chosen, and at the
  // limit no line wins over one asked for before it at another distance.
  method ChooseLines(ps: seq<Pattern>, n: nat, limit: nat) returns (chosen: set<nat>)
    ensures Fills(Header(n), AllWindows(ps, n, |ps|), chosen, limit)
    ensures InPriority(ps, n, |ps|, chosen, limit)
  {
    chosen := Header(n);
    FillsNothing(chosen, {}, limit);
    for k := 0 to |ps|
      invariant Fills(Header(n), AllWindows(ps, n, k), chosen, limit)
      invariant InPriority(ps, n, k, chosen, limit)
    {
      ghost var held := chosen;
      chosen := AddPattern(chosen, ps[k], n, limit);
      FillsMore(Header(n), AllWindows(ps, n, k), held, Windows(ps[k], n, n), chosen, limit);
      NextPattern(ps, n, k, held, chosen, limit);
    }
  }

  lemma NextPattern(ps: seq<Pattern>, n: nat, k: nat, held: set<nat>, chosen: set<nat>, limit: nat)
    requires k < |ps| && Fills(Header(n), AllWindows(ps, n, k), held, limit)
    requires Fills(held, Windows(ps[k], n, n), chosen, limit) && MatchesInOrder(held, ps[k], n, n, chosen, limit)
    requires InPriority(ps, n, k, held, limit)
    ensures InPriority(ps, n, k + 1, chosen, limit)
  {
    forall q: nat, m: nat, d: nat | q <= k && m < n && ps[q].matches(m) && d <= ps[q].radius
      ensures Settled(AskedUpTo(ps, n, q, m, d), chosen, limit)
    {
      if q < k {
        SettledStays(AskedUpTo(ps, n, q, m, d), held, Windows(ps[k], n, n), chosen, limit);
      } else {
        var lines := Windows(ps[k], n, m) + Window(m, d, n);
        assert held + lines == held + Windows(ps[k], n, m) + Window(m, d, n);
        SettledBefore(Header(n), AllWindows(ps, n, k), held, lines, Windows(ps[k], n, n), chosen, limit);
        assert AskedUpTo(ps, n, k, m, d) == Header(n) + AllWindows(ps, n, k) + lines;
      }
    }
  }

  // ---------- rendering ----------

  // Numbers of omitted lines count from one, as printed.
  datatype Row = Shown(index: nat) | Omitted(first: nat, last: nat)

  // The line positions a rendered excerpt speaks of, in order.
  function Range(a: nat, b: nat): seq<nat>
    decreases b - a
  {
    if a >= b then [] else [a] + Range(a + 1, b)
  }

  function Positions(r: Row): seq<nat> {
    match r
    case Shown(i) => [i]
    case Omitted(first, last) => if first == 0 then [] else Range(first - 1, last)
  }

  function Spoken(rows: seq<Row>): seq<nat> {
    if rows == [] then [] else Spoken(rows[..|rows| - 1]) + Positions(rows[|rows| - 1])
  }

  function ShownLines(rows: seq<Row>): seq<nat> {
    if rows == [] then []
    else if rows[|rows| - 1].Shown? then ShownLines(rows[..|rows| - 1]) + [rows[|rows| - 1].index]
    else ShownLines(rows[..|rows| - 1])
  }

  predicate Ascending(s: seq<nat>, n: nat) {
    (forall k :: 0 <= k < |s| ==> s[k] < n) && forall k, l :: 0 <= k < l < |s| ==> s[k] < s[l]
  }

  lemma {:induction false} RangeSplits(a: nat, b: nat, c: nat)
    requires a <= b <= c
    ensures Range(a, c) == Range(a, b) + Range(b, c)
    decreases b - a
  {
    if a < b {
      RangeSplits(a + 1, b, c);
    }
  }

  lemma SpokenAppend(rows: seq<Row>, r: Row)
    ensures Spoken(rows + [r]) == Spoken(rows) + Positions(r)
  {
    assert (rows + [r])[..|rows|] == rows;
  }

  lemma SpokenGrows(rows: seq<Row>, r: Row, a: nat, b: nat, c: nat)
    requires Spoken(rows) == Range(a, b) && a <= b <= c && Positions(r) == Range(b, c)
    ensures Spoken(rows + [r]) == Range(a, c)
  {
    SpokenAppend(rows, r);
    RangeSplits(a, b, c);
  }

  lemma ShownAppend(rows: seq<Row>, r: Row)
    ensures ShownLines(rows + [r]) == if r.Shown? then ShownLines(rows) + [r.index] else ShownLines(rows)
  {
    assert (rows + [r])[..|rows|] == rows;
  }

  // The lines of the source from `first` up to `next` are accounted for, and these are shown.
  ghost predicate Accounts(rows: seq<Row>, first: nat, next: nat, shown: seq<nat>) {
    first <= next && Spoken(rows) == Range(first, next) && ShownLines(rows) == shown
  }

  lemma OmitAccounts(rows: seq<Row>, first: nat, next: nat, index: nat, shown: seq<nat>)
    requires Accounts(rows, first, next, shown) && next < index
    ensures Accounts(rows + [Omitted(next + 1, index)], first, index, shown)
  {
    SpokenGrows(rows, Omitted(next + 1, index), first, next, index);
    ShownAppend(rows, Omitted(next + 1, index));
  }

  lemma ShowAccounts(rows: seq<Row>, first: nat, index: nat, shown: seq<nat>)
    requires Accounts(rows, first, index, shown)
    ensures Accounts(rows + [Shown(index)], first, index + 1, shown + [index])
  {
    assert Range(index, index + 1) == [index] + Range(index + 1, index + 1);
    SpokenGrows(rows, Shown(index), first, index, index + 1);
    ShownAppend(rows, Shown(index));
  }

  // Shows one line, after the gap before it. Nothing marks a gap before the first line shown.
  method ShowLine(rows: seq<Row>, next: nat, index: nat, ghost first: nat, ghost reached: nat, ghost shown: seq<nat>)
    returns (after: seq<Row>)
    requires Accounts(rows, first, reached, shown) && next <= index && reached == if next == 0 then index else next
    ensures Accounts(after, first, index + 1, shown + [index])
  {
    after := rows;
    if next > 0 && index > next {
      OmitAccounts(rows, first, next, index, shown);
      after := rows + [Omitted(next + 1, index)];
    }
    ShowAccounts(after, first, index, shown);
    after := after + [Shown(index)];
  }

  // When the first line is shown, or none is, the rows account for every line of the source
  // exactly once and in order: each is shown or falls in one omitted range.
  method Render(selected: seq<nat>, n: nat) returns (rows: seq<Row>)
    requires Ascending(selected, n)
    ensures Accounts(rows, if selected == [] then 0 else selected[0], n, selected)
  {
    rows := [];
    var next := 0;
    ghost var first: nat := if selected == [] then 0 else selected[0];
    ghost var reached, shown: seq<nat> := first, [];
    for k := 0 to |selected|
      invariant shown == selected[..k] && Accounts(rows, first, reached, shown)
      invariant if k == 0 then next == 0 && reached == first else reached == next == selected[k - 1] + 1
    {
      rows := ShowLine(rows, next, selected[k], first, reached, shown);
      next, reached, shown := selected[k] + 1, selected[k] + 1, shown + [selected[k]];
    }
    assert shown == selected;
    if next < n {
      OmitAccounts(rows, first, next, n, selected);
      rows := rows + [Omitted(next + 1, n)];
    }
  }

  function Sorted(chosen: set<nat>, n: nat): seq<nat> {
    if n == 0 then [] else if n - 1 in chosen then Sorted(chosen, n - 1) + [n - 1] else Sorted(chosen, n - 1)
  }

  lemma {:induction false} SortedAscends(chosen: set<nat>, n: nat)
    ensures Ascending(Sorted(chosen, n), n)
    ensures forall i: nat :: i in Sorted(chosen, n) <==> i in chosen && i < n
  {
    if n > 0 {
      SortedAscends(chosen, n - 1);
    }
  }

  // The excerpt of a source of n lines.
  method NumberedSourceExcerpt(ps: seq<Pattern>, n: nat, limit: nat) returns (rows: seq<Row>)
    ensures Spoken(rows) == Range(0, n)
    ensures n <= limit ==> ShownLines(rows) == Sorted(Lines(n), n)
    ensures n > limit ==> exists chosen :: Fills(Header(n), AllWindows(ps, n, |ps|), chosen, limit) &&
                                           InPriority(ps, n, |ps|, chosen, limit) &&
                                           ShownLines(rows) == Sorted(chosen, n)
  {
    if n <= limit {
      SortedAscends(Lines(n), n);
      rows := Render(Sorted(Lines(n), n), n);
      assert n > 0 ==> 0 in Sorted(Lines(n), n);
    } else {
      var chosen := ChooseLines(ps, n, limit);
      SortedAscends(chosen, n);
      assert 0 in Header(n);
      assert 0 in Sorted(chosen, n);
      rows := Render(Sorted(chosen, n), n);
    }
  }
}
