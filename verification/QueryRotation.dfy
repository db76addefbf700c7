// Which of the configured search queries an idle scan runs: a window that moves round the list.
module QueryRotation {
  import opened Basics

  // How many queries one scan takes from a list of n.
  function Window(n: nat, perScan: int): (count: nat)
    requires n > 0
    ensures 1 <= count <= n
  {
    Min(n, Max(1, perScan))
  }

  class Rotation {
    const queries: seq<string>
    const perScan: int
    var cursor: int

    constructor (queries: seq<string>, perScan: int, cursor: int)
      ensures this.queries == queries && this.perScan == perScan && this.cursor == cursor
    {
      this.queries, this.perScan, this.cursor := queries, perScan, cursor;
    }

    method NextIdleFocusedQueries() returns (selected: seq<string>)
      modifies this
      ensures queries == [] ==> selected == [] && cursor == old(cursor)
      ensures queries != [] ==> selected == Scan(queries, perScan, old(cursor)) && cursor == Next(queries, perScan, old(cursor))
    {
      if queries == [] {
        return [];
      }
      var count, start := Window(|queries|, perScan), cursor % |queries|;
      selected := [];
      for offset := 0 to count
        invariant selected == Scan(queries, perScan, cursor)[..offset]
      {
        selected := selected + [queries[(start + offset) % |queries|]];
      }
      cursor := (start + count) % |queries|;
    }
  }

  function Scan(queries: seq<string>, perScan: int, cursor: int): (selected: seq<string>)
    requires queries != []
    ensures |selected| == Window(|queries|, perScan)
  {
    seq(Window(|queries|, perScan), i requires 0 <= i => queries[(cursor % |queries| + i) % |queries|])
  }

  function Next(queries: seq<string>, perScan: int, cursor: int): int
    requires queries != []
  {
    (cursor % |queries| + Window(|queries|, perScan)) % |queries|
  }

  // ---------- going round a list ----------

  // The remainder, by repeated subtraction.
  function Wrap(x: nat, n: nat): (r: nat)
    requires n > 0
    ensures r < n
  {
    if x < n then x else Wrap(x - n, n)
  }

  lemma {:induction false} WrapAdd(a: nat, b: nat, n: nat)
    requires n > 0
    ensures Wrap(Wrap(a, n) + b, n) == Wrap(a + b, n)
  {
    if a >= n {
      WrapAdd(a - n, b, n);
    }
  }

  lemma {:induction false} NextMultiple(n: nat, a: nat, b: nat)
    requires a < b
    ensures n * a + n <= n * b
  {
    assert n * b == n * (b - 1) + n;
    if a < b - 1 {
      NextMultiple(n, a, b - 1);
    }
  }

  lemma OneQuotient(n: nat, a: nat, r: nat, b: nat, s: nat)
    requires r < n && s < n && n * a + r == n * b + s
    ensures a == b && r == s
  {
    if a < b {
      NextMultiple(n, a, b);
    } else if b < a {
      NextMultiple(n, b, a);
    }
  }

  lemma {:induction false} WrapIsMod(x: nat, n: nat)
    requires n > 0
    ensures Wrap(x, n) == x % n
  {
    if x < n {
      OneQuotient(n, 0, x, x / n, x % n);
    } else {
      WrapIsMod(x - n, n);
      var q, r := (x - n) / n, (x - n) % n;
      assert n * (q + 1) == n * q + n;
      OneQuotient(n, q + 1, r, x / n, x % n);
    }
  }

  // ---------- turns ----------

  // How often position q comes up among `length` consecutive positions from c round a list of n.
  function Turns(n: nat, c: nat, length: nat, q: nat): nat
    requires n > 0
  {
    if length == 0 then 0 else Turns(n, c, length - 1, q) + if Wrap(c + length - 1, n) == q then 1 else 0
  }

  // The same for k consecutive scans of `count` positions, the cursor moving between them.
  function TurnsInScans(n: nat, count: nat, c: nat, k: nat, q: nat): nat
    requires n > 0
    decreases k
  {
    if k == 0 then 0 else Turns(n, c, count, q) + TurnsInScans(n, count, Wrap(c + count, n), k - 1, q)
  }

  lemma {:induction false} TurnsShift(n: nat, c: nat, length: nat, q: nat)
    requires n > 0
    ensures Turns(n, Wrap(c, n), length, q) == Turns(n, c, length, q)
  {
    if length > 0 {
      TurnsShift(n, c, length - 1, q);
      WrapAdd(c, length - 1, n);
    }
  }

  lemma {:induction false} TurnsSplit(n: nat, c: nat, a: nat, b: nat, q: nat)
    requires n > 0
    ensures Turns(n, c, a + b, q) == Turns(n, c, a, q) + Turns(n, c + a, b, q)
  {
    if b > 0 {
      TurnsSplit(n, c, a, b - 1, q);
    }
  }

  // Consecutive scans read consecutive positions.
  lemma {:induction false} ScansAreConsecutive(n: nat, count: nat, c: nat, k: nat, q: nat)
    requires n > 0
    ensures TurnsInScans(n, count, c, k, q) == Turns(n, c, k * count, q)
    decreases k
  {
    if k > 0 {
      ScansAreConsecutive(n, count, Wrap(c + count, n), k - 1, q);
      var rest := (k - 1) * count;
      assert k * count == count + rest;
      TurnsShift(n, c + count, rest, q);
      TurnsSplit(n, c, count, rest, q);
    }
  }

  function Offset(n: nat, c: nat, q: nat): nat
    requires q < n && c < n
  {
    if q >= c then q - c else q + n - c
  }

  // Within one round, a position comes up once the window has reached it.
  lemma {:induction false} TurnsInRound(n: nat, c: nat, length: nat, q: nat)
    requires q < n && c < n && length <= n
    ensures Turns(n, c, length, q) == if Offset(n, c, q) < length then 1 else 0
  {
    if length > 0 {
      TurnsInRound(n, c, length - 1, q);
      var at := c + length - 1;
      assert Wrap(at, n) == if at < n then at else at - n;
    }
  }

  lemma {:induction false} TurnsInRounds(n: nat, c: nat, rounds: nat, q: nat)
    requires q < n
    ensures Turns(n, c, n * rounds, q) == rounds
  {
    if rounds > 0 {
      TurnsInRounds(n, c, rounds - 1, q);
      var before := n * (rounds - 1);
      assert n * rounds == before + n;
      TurnsSplit(n, c, before, n, q);
      TurnsShift(n, c + before, n, q);
      TurnsInRound(n, Wrap(c + before, n), n, q);
    }
  }

  // Any n scans in a row run every query exactly as often as one scan runs queries.
  lemma RotationIsFair(n: nat, count: nat, c: nat, q: nat)
    requires q < n
    ensures TurnsInScans(n, count, c, n, q) == count
  {
    ScansAreConsecutive(n, count, c, n, q);
    TurnsInRounds(n, c, count, q);
  }

  lemma LongEnoughCovers(n: nat, c: nat, length: nat, q: nat)
    requires q < n <= length
    ensures Turns(n, c, length, q) > 0
  {
    TurnsSplit(n, c, n, length - n, q);
    TurnsShift(n, c, n, q);
    TurnsInRound(n, Wrap(c, n), n, q);
  }

  lemma TooShortMisses(n: nat, c: nat, length: nat)
    requires length < n
    ensures Turns(n, c, length, Wrap(c + length, n)) == 0
  {
    var q := Wrap(c + length, n);
    WrapAdd(c, length, n);
    TurnsShift(n, c, length, q);
    TurnsInRound(n, Wrap(c, n), length, q);
  }

  // A run of scans runs every query exactly when it reads as many positions as the list has.
  lemma RotationCovers(n: nat, count: nat, c: nat, k: nat)
    requires n > 0
    ensures (forall q :: 0 <= q < n ==> TurnsInScans(n, count, c, k, q) > 0) <==> k * count >= n
  {
    var length := k * count;
    forall q | 0 <= q < n
      ensures TurnsInScans(n, count, c, k, q) == Turns(n, c, length, q)
    {
      ScansAreConsecutive(n, count, c, k, q);
    }
    if length >= n {
      forall q | 0 <= q < n
        ensures Turns(n, c, length, q) > 0
      {
        LongEnoughCovers(n, c, length, q);
      }
    } else {
      TooShortMisses(n, c, length);
      assert TurnsInScans(n, count, c, k, Wrap(c + length, n)) == 0;
    }
  }

  // What is counted above is what the scans select: the window of one scan, and where the
  // cursor stands after it.
  lemma ScanReadsTurns(queries: seq<string>, perScan: int, cursor: nat, i: nat)
    requires queries != [] && i < Window(|queries|, perScan)
    ensures Scan(queries, perScan, cursor)[i] == queries[Wrap(cursor + i, |queries|)]
    ensures Next(queries, perScan, cursor) == Wrap(cursor + Window(|queries|, perScan), |queries|)
  {
    var n := |queries|;
    WrapIsMod(cursor, n);
    WrapIsMod(cursor % n + i, n);
    WrapAdd(cursor, i, n);
    WrapIsMod(cursor % n + Window(n, perScan), n);
    WrapAdd(cursor, Window(n, perScan), n);
  }
}
