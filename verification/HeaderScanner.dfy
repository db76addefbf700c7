// Blanking the comments and strings of C++ header lines. The scanner jumps from one comment or
// string boundary to the next; the automaton it refines reads one character at a time.
module HeaderScanner {
  // ---------- the automaton ----------

  // What the current character belongs to. The opening and the closing mark of a block comment
  // take two characters each; Opening and Closing stand between them.
  datatype Mode = Code | Opening | Block | Closing | Line | Quoted(quote: char) | Escaped(quote: char)

  datatype Shown = Both | VisibleOnly | Neither

  predicate Quote(c: char) {
    c == '"' || c == '\''
  }

  predicate Next(rest: string, c: char) {
    rest != [] && rest[0] == c
  }

  // One character, with one character of lookahead.
  function Step(m: Mode, c: char, rest: string): (Mode, Shown) {
    match m
    case Code =>
      if c == '/' && Next(rest, '/') then (Line, Neither)
      else if c == '/' && Next(rest, '*') then (Opening, Neither)
      else if Quote(c) then (Quoted(c), VisibleOnly)
      else (Code, Both)
    case Opening => (Block, Neither)
    case Block => (if c == '*' && Next(rest, '/') then Closing else Block, Neither)
    case Closing => (Code, Neither)
    case Line => (Line, Neither)
    case Quoted(q) =>
      if c == '\\' && rest != [] then (Escaped(q), VisibleOnly)
      else (if c == q then Code else Quoted(q), VisibleOnly)
    case Escaped(q) => (Quoted(q), VisibleOnly)
  }

  datatype Scan = Scan(visible: string, structural: string, comment: bool)

  function Read(s: string, m: Mode): Scan {
    if s == [] then Scan([], [], m.Block?)
    else
      var (next, shown) := Step(m, s[0], s[1..]);
      var rest := Read(s[1..], next);
      Scan([if shown.Neither? then ' ' else s[0]] + rest.visible,
           [if shown.Both? then s[0] else ' '] + rest.structural,
           rest.comment)
  }

  function Start(comment: bool): Mode {
    if comment then Block else Code
  }

  // Both outputs have the length of the line. A structural character is a visible one or a
  // blank, and a visible one is the original or a blank.
  lemma {:induction false} ReadShape(s: string, m: Mode)
    ensures |Read(s, m).visible| == |Read(s, m).structural| == |s|
    ensures forall k :: 0 <= k < |s| ==> Read(s, m).visible[k] == s[k] || Read(s, m).visible[k] == ' '
    ensures forall k :: 0 <= k < |s| ==> Read(s, m).structural[k] == Read(s, m).visible[k] || Read(s, m).structural[k] == ' '
  {
    if s != [] {
      ReadShape(s[1..], Step(m, s[0], s[1..]).0);
    }
  }

  // The mode a comment-free copy of the line is in.
  function Cleared(m: Mode): Mode {
    match m
    case Quoted(_) => m
    case Escaped(_) => m
    case _ => Code
  }

  // The first visible character is the line's own, or a blank where a comment is.
  lemma FirstVisible(s: string, m: Mode)
    requires s != []
    ensures Read(s, m).visible != []
    ensures Read(s, m).visible[0] == if Step(m, s[0], s[1..]).1.Neither? then ' ' else s[0]
  {
  }

  // One step over the blanked text mirrors the step over the line.
  lemma ClearedStep(s: string, m: Mode, rest: string)
    requires s != [] && |rest| == |s| - 1
    requires |s| > 1 ==> rest[0] == if Step(Step(m, s[0], s[1..]).0, s[1], s[2..]).1.Neither? then ' ' else s[1]
    ensures var (next, shown) := Step(m, s[0], s[1..]);
            Step(Cleared(m), if shown.Neither? then ' ' else s[0], rest)
            == (Cleared(next), if shown.Neither? then Both else shown)
  {
  }

  // Blanking leaves nothing to blank: reading the visible text again shows the same text, the
  // same structure, and no open comment.
  lemma {:induction false} VisibleIsClean(s: string, m: Mode)
    ensures Read(Read(s, m).visible, Cleared(m)) == Scan(Read(s, m).visible, Read(s, m).structural, false)
  {
    if s != [] {
      var (next, shown) := Step(m, s[0], s[1..]);
      var rest := Read(s[1..], next);
      var first := if shown.Neither? then ' ' else s[0];
      assert Read(s, m).visible == [first] + rest.visible;
      VisibleIsClean(s[1..], next);
      ReadShape(s[1..], next);
      if s[1..] != [] {
        FirstVisible(s[1..], next);
      }
      ClearedStep(s, m, rest.visible);
      assert ([first] + rest.visible)[1..] == rest.visible;
    }
  }

  // The structural text holds no comment and no quote at all.
  lemma {:induction false} StructuralIsCode(s: string, m: Mode)
    ensures Read(Read(s, m).structural, Code) == Scan(Read(s, m).structural, Read(s, m).structural, false)
    ensures s != [] && Read(s, m).structural[0] != ' ' ==> m.Code? && Read(s, m).structural[0] == s[0]
  {
    if s != [] {
      var (next, shown) := Step(m, s[0], s[1..]);
      var rest := Read(s[1..], next);
      var first := if shown.Both? then s[0] else ' ';
      assert Read(s, m).structural == [first] + rest.structural;
      StructuralIsCode(s[1..], next);
      ReadShape(s[1..], next);
      assert Step(Code, first, rest.structural) == (Code, Both);
      assert ([first] + rest.structural)[1..] == rest.structural;
    }
  }

  // ---------- the scanner ----------

  function Spaces(n: nat): string {
    seq(n, _ => ' ')
  }

  function Prepend(visible: string, structural: string, rest: Scan): Scan {
    Scan(visible + rest.visible, structural + rest.structural, rest.comment)
  }

  predicate StartsWith(s: string, a: char, b: char) {
    |s| >= 2 && s[0] == a && s[1] == b
  }

  // Where the first closing mark at or after `from` begins, or -1.
  method FindClose(line: string, from: nat) returns (end: int)
    requires from <= |line|
    ensures end == -1 || (from <= end <= |line| - 2 && StartsWith(line[end..], '*', '/'))
    ensures forall j :: from <= j < (if end < 0 then |line| else end) ==> !StartsWith(line[j..], '*', '/')
  {
    end := from;
    while end < |line|
      invariant from <= end <= |line|
      invariant forall j :: from <= j < end ==> !StartsWith(line[j..], '*', '/')
    {
      if StartsWith(line[end..], '*', '/') {
        return;
      }
      end := end + 1;
    }
    end := -1;
  }

  lemma DropTwice(s: string, i: nat, j: nat)
    requires i + j <= |s|
    ensures s[i..][j..] == s[i + j..]
  {
  }

  lemma SpacesHead(n: nat)
    requires n > 0
    ensures Spaces(n) == [' '] + Spaces(n - 1)
  {
  }

  lemma {:induction false} BlockRun(s: string, k: nat)
    requires k <= |s| && forall j :: 0 <= j < k ==> !StartsWith(s[j..], '*', '/')
    ensures Read(s, Block) == Prepend(Spaces(k), Spaces(k), Read(s[k..], Block))
  {
    if k == 0 {
      assert s[0..] == s;
    } else {
      forall j | 0 <= j < k - 1
        ensures !StartsWith(s[1..][j..], '*', '/')
      {
        DropTwice(s, 1, j);
      }
      assert !StartsWith(s[0..], '*', '/');
      BlockRun(s[1..], k - 1);
      DropTwice(s, 1, k - 1);
      SpacesHead(k);
      PrependTwice([' '], [' '], Spaces(k - 1), Spaces(k - 1), Read(s[k..], Block));
    }
  }

  lemma {:induction false} LineRun(s: string)
    ensures Read(s, Line) == Scan(Spaces(|s|), Spaces(|s|), false)
  {
    if s != [] {
      LineRun(s[1..]);
      assert [' '] + Spaces(|s| - 1) == Spaces(|s|);
    }
  }

  // The two-character marks.
  lemma TwoBlank(s: string, m: Mode)
    requires |s| >= 2
    requires (m.Block? && StartsWith(s, '*', '/')) || (m.Code? && StartsWith(s, '/', '*'))
    ensures Read(s, m) == Prepend("  ", "  ", Read(s[2..], Start(m.Code?)))
  {
    assert s[1..][1..] == s[2..];
  }

  lemma PrependTwice(v: string, t: string, v': string, t': string, rest: Scan)
    ensures Prepend(v, t, Prepend(v', t', rest)) == Prepend(v + v', t + t', rest)
  {
  }

  // From position i to position j the line shows v and t.
  ghost predicate Shows(line: string, i: nat, m: Mode, v: string, t: string, j: nat, n: Mode) {
    i <= j <= |line| && Read(line[i..], m) == Prepend(v, t, Read(line[j..], n))
  }

  lemma ShowsTwice(line: string, i: nat, m: Mode, v: string, t: string, j: nat, n: Mode, v': string, t': string, k: nat, o: Mode)
    requires Shows(line, i, m, v, t, j, n) && Shows(line, j, n, v', t', k, o)
    ensures Shows(line, i, m, v + v', t + t', k, o)
  {
    PrependTwice(v, t, v', t', Read(line[k..], o));
  }

  lemma ShowsOne(line: string, i: nat, m: Mode)
    requires i < |line|
    ensures var (n, shown) := Step(m, line[i], line[i + 1..]);
            Shows(line, i, m, [if shown.Neither? then ' ' else line[i]], [if shown.Both? then line[i] else ' '], i + 1, n)
  {
    assert line[i..][1..] == line[i + 1..];
  }

  // A literal opened at `start` has been read up to position i.
  ghost predicate Literal(line: string, start: nat, i: nat, m: Mode) {
    start < i <= |line| && Shows(line, start, Code, line[start..i], Spaces(i - start), i, m)
  }

  lemma LiteralOpens(line: string, start: nat)
    requires start < |line| && Quote(line[start])
    ensures Literal(line, start, start + 1, Quoted(line[start]))
  {
    ShowsOne(line, start, Code);
    assert line[start..start + 1] == [line[start]] && Spaces(1) == [' '];
  }

  lemma LiteralStep(line: string, start: nat, i: nat, m: Mode)
    requires i < |line| && (m.Quoted? || m.Escaped?) && Literal(line, start, i, m)
    ensures Literal(line, start, i + 1, Step(m, line[i], line[i + 1..]).0)
  {
    var n := Step(m, line[i], line[i + 1..]).0;
    ShowsOne(line, i, m);
    ShowsTwice(line, start, Code, line[start..i], Spaces(i - start), i, m, [line[i]], [' '], i + 1, n);
    assert line[start..i + 1] == line[start..i] + [line[i]];
    assert Spaces(i + 1 - start) == Spaces(i - start) + [' '];
  }

  lemma LiteralCharacter(line: string, start: nat, i: nat, q: char)
    requires i < |line| && Literal(line, start, i, Quoted(q))
    ensures line[i] == '\\' && i + 1 < |line| ==> Literal(line, start, i + 2, Quoted(q))
    ensures !(line[i] == '\\' && i + 1 < |line|) ==> Literal(line, start, i + 1, if line[i] == q then Code else Quoted(q))
  {
    var escape := line[i] == '\\' && i + 1 < |line|;
    assert Step(Quoted(q), line[i], line[i + 1..]).0
           == if escape then Escaped(q) else if line[i] == q then Code else Quoted(q);
    LiteralStep(line, start, i, Quoted(q));
    if escape {
      assert Step(Escaped(q), line[i + 1], line[i + 2..]).0 == Quoted(q);
      LiteralStep(line, start, i + 1, Escaped(q));
    }
  }

  lemma LiteralEnds(line: string, start: nat, m: Mode)
    requires m.Quoted? && Literal(line, start, |line|, m)
    ensures Literal(line, start, |line|, Code)
  {
    assert line[|line|..] == [];
  }

  // Reads a string or character literal up to its end or the end of the line.
  method SkipLiteral(line: string, start: nat) returns (index: nat)
    requires start < |line| && Quote(line[start])
    ensures Literal(line, start, index, Code)
  {
    var quote := line[start];
    index := start + 1;
    LiteralOpens(line, start);
    while index < |line|
      invariant Literal(line, start, index, Quoted(quote))
    {
      var character := line[index];
      LiteralCharacter(line, start, index, quote);
      index := index + 1;
      if character == '\\' && index < |line| {
        index := index + 1;
      } else if character == quote {
        return;
      }
    }
    LiteralEnds(line, start, Quoted(quote));
  }

  // Skips to the end of a block comment, or to the end of the line inside it.
  method SkipComment(line: string, start: nat) returns (index: nat, comment: bool)
    requires start < |line|
    ensures start < index
    ensures Shows(line, start, Block, Spaces(index - start), Spaces(index - start), index, Start(comment))
  {
    var end := FindClose(line, start);
    if end < 0 {
      BlockRest(line, start, |line|);
      return |line|, true;
    }
    CommentEnds(line, start, end);
    return end + 2, false;
  }

  lemma CommentEnds(line: string, start: nat, end: nat)
    requires start <= end <= |line| - 2 && StartsWith(line[end..], '*', '/')
    requires forall j :: start <= j < end ==> !StartsWith(line[j..], '*', '/')
    ensures Shows(line, start, Block, Spaces(end + 2 - start), Spaces(end + 2 - start), end + 2, Code)
  {
    BlockRest(line, start, end);
    TwoBlank(line[end..], Block);
    DropTwice(line, end, 2);
    var run := Spaces(end - start);
    ShowsTwice(line, start, Block, run, run, end, Block, "  ", "  ", end + 2, Code);
    assert Spaces(end + 2 - start) == run + "  ";
  }

  method ScanHeaderLine(line: string, inBlockComment: bool) returns (visible: string, structural: string, comment: bool)
    ensures Scan(visible, structural, comment) == Read(line, Start(inBlockComment))
  {
    visible, structural, comment := [], [], inBlockComment;
    var index := 0;
    assert line[0..] == line;
    while index < |line|
      invariant index <= |line|
      invariant Shows(line, 0, Start(inBlockComment), visible, structural, index, Start(comment))
    {
      var next, after := index + 1, false;
      var shown, kept;
      if comment {
        next, after := SkipComment(line, index);
        shown, kept := Spaces(next - index), Spaces(next - index);
      } else if StartsWith(line[index..], '/', '/') {
        LineRest(line, index);
        next := |line|;
        shown, kept := Spaces(next - index), Spaces(next - index);
      } else if StartsWith(line[index..], '/', '*') {
        TwoBlank(line[index..], Code);
        DropTwice(line, index, 2);
        next, after := index + 2, true;
        shown, kept := "  ", "  ";
      } else if Quote(line[index]) {
        next := SkipLiteral(line, index);
        shown, kept := line[index..next], Spaces(next - index);
      } else {
        ShowsOne(line, index, Code);
        shown, kept := [line[index]], [line[index]];
      }
      ShowsTwice(line, 0, Start(inBlockComment), visible, structural, index, Start(comment), shown, kept, next, Start(after));
      visible, structural, index, comment := visible + shown, structural + kept, next, after;
    }
    assert line[index..] == [];
  }

  lemma LineRest(line: string, i: nat)
    requires i < |line| && StartsWith(line[i..], '/', '/')
    ensures Shows(line, i, Code, Spaces(|line| - i), Spaces(|line| - i), |line|, Code)
  {
    LineRun(line[i..][1..]);
    assert Spaces(|line| - i) == [' '] + Spaces(|line| - i - 1);
    assert line[|line|..] == [];
  }

  lemma BlockRest(line: string, from: nat, to: nat)
    requires from <= to <= |line| && forall j :: from <= j < to ==> !StartsWith(line[j..], '*', '/')
    ensures Read(line[from..], Block) == Prepend(Spaces(to - from), Spaces(to - from), Read(line[to..], Block))
  {
    forall j | 0 <= j < to - from
      ensures !StartsWith(line[from..][j..], '*', '/')
    {
      assert line[from..][j..] == line[from + j..];
    }
    BlockRun(line[from..], to - from);
    assert line[from..][to - from..] == line[to..];
  }
}
