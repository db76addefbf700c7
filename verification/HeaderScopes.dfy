// Which lines of a C++ header stand only in public sections. The source keeps a stack of scopes;
// the definition it is proved against looks at the braces and the access labels alone.
module HeaderScopes {
  import opened HeaderScanner

  datatype Kind = ClassScope | StructScope | UnionScope | OtherScope

  datatype Access = Public | Protected | Private

  datatype Token = Open(kind: Kind) | Close | Semicolon | Label(access: Access)

  function Default(k: Kind): Access {
    if k.ClassScope? then Private else Public
  }

  // ---------- scopes by braces ----------

  function Weight(t: Token): int {
    match t
    case Open(_) => 1
    case Close => -1
    case _ => 0
  }

  // Opening minus closing braces after position i and before k.
  function Balance(ts: seq<Token>, i: nat, k: nat): int
    requires i < k <= |ts|
  {
    if k == i + 1 then 0 else Balance(ts, i, k - 1) + Weight(ts[k - 1])
  }

  // The brace opened at i is still open after k tokens.
  ghost predicate Encloses(ts: seq<Token>, i: nat, k: nat) {
    && i < k <= |ts| && ts[i].Open?
    && forall j: nat :: i < j <= k ==> Balance(ts, i, j) >= 0
  }

  ghost predicate Innermost(ts: seq<Token>, i: nat, k: nat) {
    Encloses(ts, i, k) && forall j: nat :: i < j < k ==> !Encloses(ts, j, k)
  }

  // The last label directly inside the braces opened at i, or what their kind starts with.
  ghost function AccessAt(ts: seq<Token>, i: nat, k: nat): Access
    requires i < k <= |ts| && ts[i].Open?
  {
    if k == i + 1 then Default(ts[i].kind)
    else if ts[k - 1].Label? && Innermost(ts, i, k - 1) then ts[k - 1].access
    else AccessAt(ts, i, k - 1)
  }

  // Every class, struct or union that encloses the end of the tokens is in a public section.
  ghost predicate Accessible(ts: seq<Token>) {
    forall i: nat :: Encloses(ts, i, |ts|) && !ts[i].kind.OtherScope? ==> AccessAt(ts, i, |ts|) == Public
  }

  // ---------- scopes by stack ----------

  datatype Scope = Scope(kind: Kind, access: Access)

  function Apply(scopes: seq<Scope>, t: Token): seq<Scope> {
    match t
    case Open(kind) => scopes + [Scope(kind, Default(kind))]
    case Close => if scopes == [] then [] else scopes[..|scopes| - 1]
    case Semicolon => scopes
    case Label(access) =>
      if scopes != [] && !scopes[|scopes| - 1].kind.OtherScope?
      then scopes[|scopes| - 1 := Scope(scopes[|scopes| - 1].kind, access)]
      else scopes
  }

  predicate AllPublic(scopes: seq<Scope>) {
    forall d :: 0 <= d < |scopes| ==> scopes[d].kind.OtherScope? || scopes[d].access.Public?
  }

  // The stack lists the open braces from the outside in: `where` holds their positions.
  ghost predicate Lists(ts: seq<Token>, k: nat, where: seq<nat>, scopes: seq<Scope>)
    requires k <= |ts|
  {
    && |where| == |scopes|
    && (forall d, e :: 0 <= d < e < |where| ==> where[d] < where[e])
    && (forall d :: 0 <= d < |where| ==> Holds(ts, k, where[d], scopes[d], |where| - 1 - d))
    && (forall i: nat :: Encloses(ts, i, k) ==> i in where)
  }

  ghost predicate Holds(ts: seq<Token>, k: nat, i: nat, s: Scope, inner: int)
    requires k <= |ts|
  {
    && Encloses(ts, i, k) && Balance(ts, i, k) == inner && s.kind == ts[i].kind
    && (!s.kind.OtherScope? ==> s.access == AccessAt(ts, i, k))
  }

  lemma EnclosesNext(ts: seq<Token>, i: nat, k: nat)
    requires i < k < |ts|
    ensures Encloses(ts, i, k + 1) <==> Encloses(ts, i, k) && Balance(ts, i, k) + Weight(ts[k]) >= 0
    ensures Balance(ts, i, k + 1) == Balance(ts, i, k) + Weight(ts[k])
  {
    if Encloses(ts, i, k + 1) {
      assert Balance(ts, i, k + 1) >= 0;
    }
  }

  // A scope that stays open keeps its section unless a label stands directly inside it.
  lemma HoldsNext(ts: seq<Token>, k: nat, i: nat, s: Scope, inner: int)
    requires k < |ts| && Holds(ts, k, i, s, inner) && inner + Weight(ts[k]) >= 0
    requires ts[k].Label? ==> !Innermost(ts, i, k)
    ensures Holds(ts, k + 1, i, s, inner + Weight(ts[k]))
  {
    EnclosesNext(ts, i, k);
  }

  lemma HoldsLabel(ts: seq<Token>, k: nat, i: nat, s: Scope)
    requires k < |ts| && Holds(ts, k, i, s, 0) && ts[k].Label? && Innermost(ts, i, k)
    ensures Holds(ts, k + 1, i, Scope(s.kind, ts[k].access), 0)
  {
    EnclosesNext(ts, i, k);
  }

  lemma InnermostIsLast(ts: seq<Token>, k: nat, where: seq<nat>, scopes: seq<Scope>, d: nat)
    requires k <= |ts| && Lists(ts, k, where, scopes) && d < |where|
    ensures Innermost(ts, where[d], k) <==> d == |where| - 1
  {
    assert Holds(ts, k, where[d], scopes[d], |where| - 1 - d);
    assert Holds(ts, k, where[|where| - 1], scopes[|where| - 1], 0);
  }

  function Stays(where: seq<nat>, t: Token, k: nat): seq<nat> {
    match t
    case Open(_) => where + [k]
    case Close => if where == [] then [] else where[..|where| - 1]
    case _ => where
  }

  lemma ListsNext(ts: seq<Token>, k: nat, where: seq<nat>, scopes: seq<Scope>)
    requires k < |ts| && Lists(ts, k, where, scopes)
    ensures Lists(ts, k + 1, Stays(where, ts[k], k), Apply(scopes, ts[k]))
  {
    var where', scopes' := Stays(where, ts[k], k), Apply(scopes, ts[k]);
    forall d | 0 <= d < |where'|
      ensures Holds(ts, k + 1, where'[d], scopes'[d], |where'| - 1 - d)
    {
      if d < |where| {
        InnermostIsLast(ts, k, where, scopes, d);
        assert Holds(ts, k, where[d], scopes[d], |where| - 1 - d);
        if ts[k].Label? && d == |where| - 1 {
          HoldsLabel(ts, k, where[d], scopes[d]);
        } else {
          HoldsNext(ts, k, where[d], scopes[d], |where| - 1 - d);
        }
      }
    }
    forall i: nat | Encloses(ts, i, k + 1)
      ensures i in where'
    {
      if i < k {
        EnclosesNext(ts, i, k);
        var d :| 0 <= d < |where| && where[d] == i;
        assert Holds(ts, k, where[d], scopes[d], |where| - 1 - d);
        assert d < |where'| && where'[d] == i;
      } else {
        assert where'[|where'| - 1] == i;
      }
    }
  }

  // ---------- the header's lines ----------

  // A mark of the structural text, with the text between it and the mark before.
  datatype Mark = OpenBrace | CloseBrace | Semi | Section(access: Access)

  datatype Piece = Piece(before: string, mark: Mark)

  // How the text between marks is read: its marks, the scope a brace after a declaration opens,
  // and what counts as white space.
  datatype Syntax = Syntax(split: string -> (seq<Piece>, string), kind: string -> Kind, space: char -> bool)

  function TokenOf(x: Syntax, declaration: string, m: Mark): Token {
    match m
    case OpenBrace => Open(x.kind(declaration))
    case CloseBrace => Close
    case Semi => Semicolon
    case Section(access) => Label(access)
  }

  // The tokens of some pieces: only the first continues the declaration already begun.
  function Tokens(x: Syntax, declaration: string, pieces: seq<Piece>): seq<Token> {
    seq(|pieces|, k requires 0 <= k < |pieces| =>
      TokenOf(x, (if k == 0 then declaration else "") + pieces[k].before, pieces[k].mark))
  }

  function Last(s: string, n: nat): string {
    if |s| <= n then s else s[|s| - n..]
  }

  function Rest(declaration: string, pieces: seq<Piece>, tail: string): string {
    Last((if pieces == [] then declaration else "") + tail, 2000)
  }

  predicate Blank(x: Syntax, s: string) {
    forall k :: 0 <= k < |s| ==> x.space(s[k])
  }

  // The first character that is not white space is a number sign.
  predicate StartsDirective(x: Syntax, line: string) {
    exists k :: 0 <= k < |line| && line[k] == '#' && Blank(x, line[..k]) && !x.space('#')
  }

  predicate Continues(x: Syntax, line: string) {
    exists k :: 0 <= k < |line| && line[k] == '\\' && Blank(x, line[k + 1..]) && !x.space('\\')
  }

  // What is known at the start of a line.
  datatype Reader = Reader(tokens: seq<Token>, declaration: string, comment: bool, directive: bool)

  predicate Skips(x: Syntax, r: Reader, line: string) {
    r.directive || StartsDirective(x, line)
  }

  function ReadLine(x: Syntax, r: Reader, line: string): Reader {
    var scan := Read(line, Start(r.comment));
    if Skips(x, r, line) then r.(comment := scan.comment, directive := Continues(x, line))
    else
      var (pieces, tail) := x.split(scan.structural);
      Reader(r.tokens + Tokens(x, r.declaration, pieces), Rest(r.declaration, pieces, tail), scan.comment, false)
  }

  function ReadLines(x: Syntax, lines: seq<string>, n: nat): Reader
    requires n <= |lines|
  {
    if n == 0 then Reader([], "", false, false) else ReadLine(x, ReadLines(x, lines, n - 1), lines[n - 1])
  }

  // A line is yielded when it is no directive and everything open at its start is public.
  ghost predicate Yields(x: Syntax, r: Reader, line: string) {
    !Skips(x, r, line) && Accessible(r.tokens)
  }

  ghost function Yielded(x: Syntax, lines: seq<string>, n: nat): seq<(nat, string)>
    requires n <= |lines|
  {
    if n == 0 then []
    else
      var r := ReadLines(x, lines, n - 1);
      Yielded(x, lines, n - 1) +
      if Yields(x, r, lines[n - 1]) then [(n, Read(lines[n - 1], Start(r.comment)).visible)] else []
  }

  // ---------- the scanner ----------

  function Run(ts: seq<Token>, n: nat): seq<Scope>
    requires n <= |ts|
  {
    if n == 0 then [] else Apply(Run(ts, n - 1), ts[n - 1])
  }

  lemma NothingListed(ts: seq<Token>)
    ensures Lists(ts, 0, [], [])
  {
  }

  lemma {:induction false} RunLists(ts: seq<Token>, n: nat) returns (where: seq<nat>, scopes: seq<Scope>)
    requires n <= |ts|
    ensures scopes == Run(ts, n) && Lists(ts, n, where, scopes)
  {
    where, scopes := [], [];
    NothingListed(ts);
    if n > 0 {
      where, scopes := RunLists(ts, n - 1);
      ListsNext(ts, n - 1, where, scopes);
      where, scopes := Stays(where, ts[n - 1], n - 1), Apply(scopes, ts[n - 1]);
    }
  }

  // The stack says exactly what the braces and labels say.
  lemma StackIsAccess(ts: seq<Token>)
    ensures AllPublic(Run(ts, |ts|)) <==> Accessible(ts)
  {
    var where, scopes := RunLists(ts, |ts|);
    if Accessible(ts) {
      forall d | 0 <= d < |scopes|
        ensures scopes[d].kind.OtherScope? || scopes[d].access.Public?
      {
        assert Holds(ts, |ts|, where[d], scopes[d], |where| - 1 - d);
      }
    }
    if AllPublic(scopes) {
      forall i: nat | Encloses(ts, i, |ts|) && !ts[i].kind.OtherScope?
        ensures AccessAt(ts, i, |ts|) == Public
      {
        var d :| 0 <= d < |where| && where[d] == i;
        assert Holds(ts, |ts|, where[d], scopes[d], |where| - 1 - d);
      }
    }
  }

  lemma {:induction false} RunPrefix(ts: seq<Token>, more: seq<Token>, n: nat)
    requires n <= |ts|
    ensures Run(ts + more, n) == Run(ts, n)
  {
    if n > 0 {
      RunPrefix(ts, more, n - 1);
    }
  }

  // Applies the marks of one line to the scopes.
  method ReadMarks(x: Syntax, scopes: seq<Scope>, declaration: string, pieces: seq<Piece>, tail: string, ghost ts: seq<Token>)
    returns (after: seq<Scope>, rest: string)
    requires scopes == Run(ts, |ts|)
    ensures var all := ts + Tokens(x, declaration, pieces);
            after == Run(all, |all|)
    ensures rest == Rest(declaration, pieces, tail)
  {
    ghost var all := ts + Tokens(x, declaration, pieces);
    after, rest := scopes, declaration;
    RunPrefix(ts, Tokens(x, declaration, pieces), |ts|);
    for k := 0 to |pieces|
      invariant after == Run(all, |ts| + k)
      invariant rest == if k == 0 then declaration else ""
    {
      after := Apply(after, TokenOf(x, rest + pieces[k].before, pieces[k].mark));
      rest := "";
    }
    rest := Last(rest + tail, 2000);
  }

  method AccessibleHeaderLines(x: Syntax, lines: seq<string>) returns (yielded: seq<(nat, string)>)
    ensures yielded == Yielded(x, lines, |lines|)
  {
    yielded := [];
    var scopes: seq<Scope>, declaration, comment, directive := [], "", false, false;
    ghost var ts: seq<Token> := [];
    for n := 0 to |lines|
      invariant ReadLines(x, lines, n) == Reader(ts, declaration, comment, directive)
      invariant scopes == Run(ts, |ts|)
      invariant yielded == Yielded(x, lines, n)
    {
      var visible, structural, after := ScanHeaderLine(lines[n], comment);
      if directive || StartsDirective(x, lines[n]) {
        directive := Continues(x, lines[n]);
      } else {
        StackIsAccess(ts);
        if AllPublic(scopes) {
          yielded := yielded + [(n + 1, visible)];
        }
        var (pieces, tail) := x.split(structural);
        ghost var read := ts + Tokens(x, declaration, pieces);
        scopes, declaration := ReadMarks(x, scopes, declaration, pieces, tail, ts);
        ts := read;
      }
      comment := after;
    }
  }

  // What is yielded is the visible text of lines in public sections, and every such line is.
  lemma {:induction false} YieldedLines(x: Syntax, lines: seq<string>, n: nat, number: nat, visible: string)
    requires n <= |lines|
    ensures (number, visible) in Yielded(x, lines, n) <==>
              1 <= number <= n && Yields(x, ReadLines(x, lines, number - 1), lines[number - 1]) &&
              visible == Read(lines[number - 1], Start(ReadLines(x, lines, number - 1).comment)).visible
  {
    if n > 0 {
      YieldedLines(x, lines, n - 1, number, visible);
    }
  }

  predicate InOrder(yielded: seq<(nat, string)>, n: nat) {
    && (forall k :: 0 <= k < |yielded| ==> 1 <= yielded[k].0 <= n)
    && forall k, l :: 0 <= k < l < |yielded| ==> yielded[k].0 < yielded[l].0
  }

  lemma {:induction false} YieldedInOrder(x: Syntax, lines: seq<string>, n: nat)
    requires n <= |lines|
    ensures InOrder(Yielded(x, lines, n), n)
  {
    if n > 0 {
      YieldedInOrder(x, lines, n - 1);
      var r := ReadLines(x, lines, n - 1);
      if Yields(x, r, lines[n - 1]) {
        OrderAppend(Yielded(x, lines, n - 1), n, Read(lines[n - 1], Start(r.comment)).visible);
      } else {
        assert Yielded(x, lines, n) == Yielded(x, lines, n - 1);
      }
    }
  }

  lemma OrderAppend(yielded: seq<(nat, string)>, n: nat, visible: string)
    requires n > 0 && InOrder(yielded, n - 1)
    ensures InOrder(yielded + [(n, visible)], n)
  {
  }

  // Nested braces: a public inner struct does not open a private outer class.
  lemma OuterDecides(ts: seq<Token>, i: nat)
    requires Encloses(ts, i, |ts|) && !ts[i].kind.OtherScope? && AccessAt(ts, i, |ts|) != Public
    ensures !AllPublic(Run(ts, |ts|))
  {
    StackIsAccess(ts);
  }
}
