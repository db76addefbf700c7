// The fuzzing dictionary a stalled campaign writes, and the reader that turns its lines back
// into seeds. Strings are sequences of Unicode scalar values; JSON strings follow section 7 of
// RFC 8259.
module Dictionary {
  import opened Basics

  // ---------- writing ----------

  predicate Control(c: char) {
    c < ' '
  }

  // Worth writing: something alphanumeric, and no control character.
  predicate Useful(t: string, alphanumeric: char -> bool) {
    (exists i :: 0 <= i < |t| && alphanumeric(t[i])) && forall i :: 0 <= i < |t| ==> !Control(t[i])
  }

  function Replace(s: string, c: char, with: string): string {
    if s == [] then [] else (if s[0] == c then with else [s[0]]) + Replace(s[1..], c, with)
  }

  function Escape(t: string): string {
    Replace(Replace(Replace(Replace(t, '\\', "\\\\"), '"', "\\\""), '\n', "\\n"), '\r', "\\r")
  }

  function EscapeCharacter(c: char): string {
    if c == '\\' then "\\\\" else if c == '"' then "\\\"" else if c == '\n' then "\\n" else if c == '\r' then "\\r" else [c]
  }

  function Quoted(t: string): string {
    ['"'] + Escape(t) + ['"']
  }

  function Render(ts: seq<string>): string {
    if ts == [] then [] else Quoted(ts[0]) + ['\n'] + Render(ts[1..])
  }

  lemma Associates<T>(a: seq<T>, b: seq<T>, c: seq<T>)
    ensures a + (b + c) == a + b + c
  {
  }

  lemma {:induction false} ReplaceAppend(a: string, b: string, c: char, with: string)
    ensures Replace(a + b, c, with) == Replace(a, c, with) + Replace(b, c, with)
  {
    if a == [] {
      assert a + b == b;
    } else {
      var whole, tail := a + b, a[1..];
      ReplaceAppend(tail, b, c, with);
      assert whole[0] == a[0] && whole[1..] == tail + b;
      Associates(if a[0] == c then with else [a[0]], Replace(tail, c, with), Replace(b, c, with));
    }
  }

  lemma ReplaceOne(c: char, d: char, with: string)
    ensures Replace([c], d, with) == if c == d then with else [c]
  {
    assert [c][1..] == [];
  }

  lemma ReplaceTwo(a: char, b: char, d: char, with: string)
    requires a != d
    ensures Replace([a, b], d, with) == [a] + if b == d then with else [b]
  {
    assert [a, b][1..] == [b];
    ReplaceOne(b, d, with);
  }

  // Four passes over the token escape it character by character.
  lemma EscapeHead(t: string)
    requires t != []
    ensures Escape(t) == EscapeCharacter(t[0]) + Escape(t[1..])
  {
    var head, tail := [t[0]], t[1..];
    assert t == head + tail;
    ReplaceAppend(head, tail, '\\', "\\\\");
    var a, a' := Replace(head, '\\', "\\\\"), Replace(tail, '\\', "\\\\");
    ReplaceAppend(a, a', '"', "\\\"");
    var b, b' := Replace(a, '"', "\\\""), Replace(a', '"', "\\\"");
    ReplaceAppend(b, b', '\n', "\\n");
    var c, c' := Replace(b, '\n', "\\n"), Replace(b', '\n', "\\n");
    ReplaceAppend(c, c', '\r', "\\r");
    EscapeOne(t[0]);
  }

  lemma EscapeOne(c: char)
    ensures Escape([c]) == EscapeCharacter(c)
  {
    ReplaceOne(c, '\\', "\\\\");
    if c == '\\' {
      ReplaceTwo('\\', '\\', '"', "\\\"");
      ReplaceTwo('\\', '\\', '\n', "\\n");
      ReplaceTwo('\\', '\\', '\r', "\\r");
    } else {
      ReplaceOne(c, '"', "\\\"");
      if c == '"' {
        ReplaceTwo('\\', '"', '\n', "\\n");
        ReplaceTwo('\\', '"', '\r', "\\r");
      } else {
        ReplaceOne(c, '\n', "\\n");
        if c == '\n' {
          ReplaceTwo('\\', 'n', '\r', "\\r");
        } else {
          ReplaceOne(c, '\r', "\\r");
        }
      }
    }
  }

  // ---------- reading ----------

  // Where a text is split into lines.
  predicate Break(c: char) {
    || '\n' <= c <= '\r' || '\U{1c}' <= c <= '\U{1e}'
    || c == '\U{85}' || c == '\U{2028}' || c == '\U{2029}'
  }

  predicate Space(c: char) {
    || '\t' <= c <= '\r' || '\U{1c}' <= c <= ' ' || c == '\U{85}' || c == '\U{a0}' || c == '\U{1680}'
    || '\U{2000}' <= c <= '\U{200a}' || c == '\U{2028}' || c == '\U{2029}' || c == '\U{202f}'
    || c == '\U{205f}' || c == '\U{3000}'
  }

  // The lines of a text after `begun`; a final empty line does not count.
  function Lines(s: string, begun: string): seq<string> {
    if s == [] then if begun == [] then [] else [begun]
    else if s[0] == '\r' && |s| > 1 && s[1] == '\n' then [begun] + Lines(s[2..], [])
    else if Break(s[0]) then [begun] + Lines(s[1..], [])
    else Lines(s[1..], begun + [s[0]])
  }

  function StripLeft(s: string): string {
    if s != [] && Space(s[0]) then StripLeft(s[1..]) else s
  }

  function StripRight(s: string): string {
    if s != [] && Space(s[|s| - 1]) then StripRight(s[..|s| - 1]) else s
  }

  function Strip(s: string): string {
    StripRight(StripLeft(s))
  }

  // The text after the first equals sign, if there is one.
  function AfterEquals(s: string): Option<string> {
    if s == [] then None else if s[0] == '=' then Some(s[1..]) else AfterEquals(s[1..])
  }

  // A named entry keeps its value.
  function ValueOf(line: string): string {
    var value := Strip(line);
    if AfterEquals(value).Some? && !(value != [] && value[0] == '"') then Strip(AfterEquals(value).value) else value
  }

  function Prepend(c: char, rest: Option<string>): Option<string> {
    if rest.None? then None else Some([c] + rest.value)
  }

  function HexDigit(c: char): int {
    if '0' <= c <= '9' then c as int - '0' as int
    else if 'a' <= c <= 'f' then c as int - 'a' as int + 10
    else if 'A' <= c <= 'F' then c as int - 'A' as int + 10
    else -1
  }

  // The code unit of a \u escape at the start of s, or -1.
  function Unit(s: string): int {
    if |s| < 6 || s[0] != '\\' || s[1] != 'u' then -1
    else if HexDigit(s[2]) < 0 || HexDigit(s[3]) < 0 || HexDigit(s[4]) < 0 || HexDigit(s[5]) < 0 then -1
    else HexDigit(s[2]) * 4096 + HexDigit(s[3]) * 256 + HexDigit(s[4]) * 16 + HexDigit(s[5])
  }

  // What follows the opening quote: the characters up to a closing quote at the very end. A
  // surrogate that is not part of a pair encodes to nothing.
  function Body(s: string): Option<string> {
    if s == [] || Control(s[0]) then None
    else if s[0] == '"' then if |s| == 1 then Some([]) else None
    else if s[0] != '\\' then Prepend(s[0], Body(s[1..]))
    else if |s| < 2 then None
    else
      match s[1]
      case '"' => Prepend('"', Body(s[2..]))
      case '\\' => Prepend('\\', Body(s[2..]))
      case '/' => Prepend('/', Body(s[2..]))
      case 'b' => Prepend('\U{8}', Body(s[2..]))
      case 'f' => Prepend('\U{c}', Body(s[2..]))
      case 'n' => Prepend('\n', Body(s[2..]))
      case 'r' => Prepend('\r', Body(s[2..]))
      case 't' => Prepend('\t', Body(s[2..]))
      case 'u' =>
        var unit := Unit(s);
        if unit < 0 then None
        else if !(0xd800 <= unit < 0xe000) then Prepend(unit as char, Body(s[6..]))
        else
          var low := Unit(s[6..]);
          if unit < 0xdc00 && 0xdc00 <= low < 0xe000
          then Prepend((0x10000 + (unit - 0xd800) * 0x400 + (low - 0xdc00)) as char, Body(s[12..]))
          else Body(s[6..])
      case _ => None
  }

  // The value of a JSON text that is one string, and nothing for any other JSON text.
  function JsonString(s: string): Option<string> {
    if s == [] || s[0] != '"' then None else Body(s[1..])
  }

  function Width(c: char): nat {
    var n := c as int;
    if n < 0x80 then 1 else if n < 0x800 then 2 else if n < 0x10000 then 3 else 4
  }

  // The length of a string in UTF-8.
  function Encoded(s: string): nat {
    if s == [] then 0 else Width(s[0]) + Encoded(s[1..])
  }

  const MAX_LINES := 512
  const MAX_TOKENS := 128
  const MAX_BYTES := 4096

  function TokenOf(line: string): Option<string> {
    var decoded := JsonString(ValueOf(line));
    if decoded.Some? && 0 < Encoded(decoded.value) <= MAX_BYTES then decoded else None
  }

  function TokenList(line: string): seq<string> {
    if TokenOf(line).Some? then [TokenOf(line).value] else []
  }

  function TokensOf(lines: seq<string>): seq<string> {
    if lines == [] then [] else TokensOf(lines[..|lines| - 1]) + TokenList(lines[|lines| - 1])
  }

  function Take<T>(s: seq<T>, n: nat): seq<T> {
    if |s| <= n then s else s[..n]
  }

  function Parsed(text: string): seq<string> {
    Take(TokensOf(Take(Lines(text, []), MAX_LINES)), MAX_TOKENS)
  }

  lemma TokensNext(lines: seq<string>, n: nat)
    requires n < |lines|
    ensures TokensOf(lines[..n + 1]) ==
            if TokenOf(lines[n]).Some? then TokensOf(lines[..n]) + [TokenOf(lines[n]).value] else TokensOf(lines[..n])
  {
    assert lines[..n + 1][..n] == lines[..n];
  }

  method ReadTokens(text: string) returns (tokens: seq<string>)
    ensures tokens == Parsed(text)
  {
    var lines := Take(Lines(text, []), MAX_LINES);
    tokens := [];
    assert lines[..|lines|] == lines;
    for n := 0 to |lines|
      invariant tokens == TokensOf(lines[..n]) && |tokens| < MAX_TOKENS
    {
      TokensNext(lines, n);
      var token := TokenOf(lines[n]);
      if token.Some? {
        tokens := tokens + [token.value];
      }
      if |tokens| >= MAX_TOKENS {
        TokensPrefix(lines, n + 1);
        return;
      }
    }
  }

  lemma {:induction false} TokensAppend(a: seq<string>, b: seq<string>)
    ensures TokensOf(a + b) == TokensOf(a) + TokensOf(b)
  {
    if b == [] {
      assert a + b == a;
    } else {
      var front, last := b[..|b| - 1], b[|b| - 1];
      TokensAppend(a, front);
      assert (a + b)[..|a + b| - 1] == a + front;
      Associates(TokensOf(a), TokensOf(front), TokenList(last));
    }
  }

  lemma {:induction false} TokensPrefix(lines: seq<string>, n: nat)
    requires n <= |lines|
    ensures TokensOf(lines[..n]) <= TokensOf(lines)
  {
    var front, back := lines[..n], lines[n..];
    assert lines == front + back;
    TokensAppend(front, back);
  }

  // ---------- the round trip ----------

  // A token that holds a character the reader takes for a line end.
  predicate Broken(t: string) {
    exists i :: 0 <= i < |t| && Break(t[i])
  }

  predicate Clean(t: string) {
    forall i :: 0 <= i < |t| ==> !Control(t[i])
  }

  // Decoding undoes escaping, for every token without control characters.
  lemma {:induction false} DecodeEscaped(t: string)
    requires Clean(t)
    ensures Body(Escape(t) + ['"']) == Some(t)
  {
    if t == [] {
    } else {
      EscapeHead(t);
      DecodeEscaped(t[1..]);
      var rest := Escape(t[1..]) + ['"'];
      var all := Escape(t) + ['"'];
      assert all == EscapeCharacter(t[0]) + rest;
      assert !Control(t[0]);
      if t[0] == '\\' || t[0] == '"' {
        assert all[0] == '\\' && all[1] == t[0] && all[2..] == rest;
      } else {
        assert all[0] == t[0] && all[1..] == rest;
      }
      assert t == [t[0]] + t[1..];
    }
  }

  // No beginning of an escaped token closes the string.
  lemma {:induction false} NoEarlyEnd(t: string, k: nat)
    requires Clean(t) && k <= |Escape(t)|
    ensures Body(Escape(t)[..k]) == None
  {
    if k > 0 && t != [] {
      EscapeHead(t);
      var one, rest := EscapeCharacter(t[0]), Escape(t[1..]);
      var s := Escape(t)[..k];
      if k < |one| {
        assert s == one[..k];
        CutEscape(t[0], k);
      } else {
        NoEarlyEnd(t[1..], k - |one|);
        assert s == one + rest[..k - |one|];
        EscapeInFront(t[0], rest[..k - |one|]);
      }
    }
  }

  lemma CutEscape(c: char, k: nat)
    requires !Control(c) && 0 < k < |EscapeCharacter(c)|
    ensures Body(EscapeCharacter(c)[..k]) == None
  {
  }

  lemma EscapeInFront(c: char, rest: string)
    requires !Control(c) && Body(rest) == None
    ensures Body(EscapeCharacter(c) + rest) == None
  {
    var s := EscapeCharacter(c) + rest;
    assert s[|EscapeCharacter(c)|..] == rest;
  }

  lemma EscapedCharacter(c: char)
    requires !Control(c)
    ensures var one := EscapeCharacter(c);
            && Clean(one) && (Broken(one) <==> Break(c)) && one != []
            && (forall i :: 0 <= i < |one| && one[i] == '"' ==> i > 0 && one[i - 1] == '\\')
  {
    var one := EscapeCharacter(c);
    assert one[|one| - 1] == c;
  }

  lemma {:induction false} EscapeKeeps(t: string)
    requires Clean(t)
    ensures Clean(Escape(t))
    ensures Broken(Escape(t)) <==> Broken(t)
    ensures forall i :: 0 <= i < |Escape(t)| && Escape(t)[i] == '"' ==> i > 0 && Escape(t)[i - 1] == '\\'
  {
    if t != [] {
      EscapeHead(t);
      EscapeKeeps(t[1..]);
      EscapedCharacter(t[0]);
      BrokenAppend(EscapeCharacter(t[0]), Escape(t[1..]));
      BrokenAppend([t[0]], t[1..]);
      assert t == [t[0]] + t[1..];
      assert Broken([t[0]]) <==> Break(t[0]) by {
        assert [t[0]][0] == t[0];
      }
    }
  }

  lemma BrokenAppend(a: string, b: string)
    ensures Broken(a + b) <==> Broken(a) || Broken(b)
  {
    if Broken(a) {
      var i :| 0 <= i < |a| && Break(a[i]);
      assert (a + b)[i] == a[i];
    }
    if Broken(b) {
      var i :| 0 <= i < |b| && Break(b[i]);
      assert (a + b)[|a| + i] == b[i];
    }
  }

  lemma QuotedKeeps(t: string)
    requires Clean(t)
    ensures Clean(Quoted(t)) && (Broken(Quoted(t)) <==> Broken(t))
    ensures forall i :: 0 < i < |Quoted(t)| - 1 && Quoted(t)[i] == '"' ==> Quoted(t)[i - 1] == '\\'
  {
    EscapeKeeps(t);
    var s := Quoted(t);
    BrokenAppend(['"'] + Escape(t), ['"']);
    BrokenAppend(['"'], Escape(t));
    assert !Broken(['"']);
    forall i | 0 < i < |s| - 1 && s[i] == '"'
      ensures s[i - 1] == '\\'
    {
      assert Escape(t)[i - 1] == '"';
    }
  }

  // ---------- lines ----------

  // A line that ends in a newline is split off from what follows.
  lemma {:induction false} LinesCut(a: string, rest: string, begun: string)
    requires Clean(a)
    ensures Lines(a + ['\n'] + rest, begun) == Lines(a + ['\n'], begun) + Lines(rest, [])
  {
    var s, u := a + ['\n'] + rest, a + ['\n'];
    if a == [] {
      assert s[1..] == rest && u[1..] == [];
    } else {
      assert s[0] == a[0] && u[0] == a[0] && !Control(a[0]);
      assert s[1..] == a[1..] + ['\n'] + rest && u[1..] == a[1..] + ['\n'];
      LinesCut(a[1..], rest, if Break(a[0]) then [] else begun + [a[0]]);
    }
  }

  lemma {:induction false} LinesWhole(a: string, begun: string)
    requires Clean(a) && !Broken(a)
    ensures Lines(a + ['\n'], begun) == [begun + a]
  {
    var u := a + ['\n'];
    if a == [] {
      assert u[1..] == [] && begun + a == begun;
    } else {
      assert u[0] == a[0] && !Control(a[0]) && !Break(a[0]);
      assert u[1..] == a[1..] + ['\n'];
      forall i | 0 <= i < |a[1..]|
        ensures !Break(a[1..][i])
      {
        assert a[1..][i] == a[i + 1];
      }
      LinesWhole(a[1..], begun + [a[0]]);
      assert begun + [a[0]] + a[1..] == begun + a;
    }
  }

  lemma LinesBreak(u: string, begun: string)
    requires u != [] && Break(u[0]) && u[0] != '\r'
    ensures Lines(u, begun) == [begun] + Lines(u[1..], [])
  {
  }

  // A stretch of s without breaks, from its start or a break up to its end or a break.
  predicate Stretch(s: string, a: nat, b: nat) {
    && a <= b <= |s| && (a == 0 || Break(s[a - 1])) && (b == |s| || Break(s[b]))
    && forall i :: a <= i < b ==> !Break(s[i])
  }

  lemma {:induction false} LinesAreStretches(s: string, a: nat, i: nat, k: nat)
    requires Clean(s) && a <= i <= |s| && (a == 0 || Break(s[a - 1])) && forall j :: a <= j < i ==> !Break(s[j])
    requires k < |Lines(s[i..] + ['\n'], s[a..i])|
    ensures exists b: nat, c: nat :: Stretch(s, b, c) && Lines(s[i..] + ['\n'], s[a..i])[k] == s[b..c]
    decreases |s| - i
  {
    var u := s[i..] + ['\n'];
    if i == |s| {
      assert u == ['\n'] && u[1..] == [];
      assert Stretch(s, a, i);
    } else {
      assert u[0] == s[i] && !Control(s[i]);
      assert u[0] >= ' ' > '\r';
      assert u[1..] == s[i + 1..] + ['\n'];
      if Break(s[i]) {
        if k == 0 {
          assert Stretch(s, a, i);
        } else {
          assert s[i + 1..i + 1] == [];
          LinesBreak(u, s[a..i]);
          LinesAreStretches(s, i + 1, i + 1, k - 1);
          var b: nat, c: nat :| Stretch(s, b, c) && Lines(u[1..], [])[k - 1] == s[b..c];
          assert Lines(u, s[a..i])[k] == s[b..c];
        }
      } else {
        assert s[a..i] + [s[i]] == s[a..i + 1];
        LinesAreStretches(s, a, i + 1, k);
      }
    }
  }

  // ---------- a piece of a broken token is no token ----------

  lemma {:induction false} StripLeftSlice(s: string, a: nat, b: nat) returns (c: nat)
    requires a <= b <= |s|
    ensures a <= c <= b && StripLeft(s[a..b]) == s[c..b] && (c == a || Space(s[c - 1]))
    decreases b - a
  {
    if a < b && Space(s[a]) {
      assert s[a..b][1..] == s[a + 1..b];
      c := StripLeftSlice(s, a + 1, b);
    } else {
      c := a;
    }
  }

  lemma {:induction false} StripRightSlice(s: string, a: nat, b: nat) returns (d: nat)
    requires a <= b <= |s|
    ensures a <= d <= b && StripRight(s[a..b]) == s[a..d]
    ensures a < b && !Space(s[a]) ==> a < d
    decreases b - a
  {
    if a < b && Space(s[b - 1]) {
      assert s[a..b][..b - 1 - a] == s[a..b - 1];
      d := StripRightSlice(s, a, b - 1);
    } else {
      d := b;
    }
  }

  lemma {:induction false} EqualsSlice(s: string, a: nat, b: nat) returns (c: nat)
    requires a <= b <= |s| && AfterEquals(s[a..b]).Some?
    ensures a < c <= b && s[c - 1] == '=' && AfterEquals(s[a..b]).value == s[c..b]
    decreases b - a
  {
    assert s[a..b][1..] == s[a + 1..b];
    if s[a] == '=' {
      c := a + 1;
    } else {
      c := EqualsSlice(s, a + 1, b);
    }
  }

  lemma StripSlice(s: string, a: nat, b: nat) returns (c: nat, d: nat)
    requires a <= b <= |s|
    ensures a <= c <= d <= b && Strip(s[a..b]) == s[c..d] && (c == a || Space(s[c - 1]))
    ensures a < b && !Space(s[a]) ==> c == a < d
  {
    c := StripLeftSlice(s, a, b);
    d := StripRightSlice(s, c, b);
  }

  // What is read of a stretch starts where the stretch does, after white space, or after an
  // equals sign.
  lemma ValueSlice(s: string, a: nat, b: nat) returns (c: nat, d: nat)
    requires a <= b <= |s|
    ensures a <= c <= d <= b && ValueOf(s[a..b]) == s[c..d] && (c == a || Space(s[c - 1]) || s[c - 1] == '=')
    ensures a < b && s[a] == '"' ==> c == a < d
  {
    c, d := StripSlice(s, a, b);
    var value := s[c..d];
    if AfterEquals(value).Some? && !(value != [] && value[0] == '"') {
      var e := EqualsSlice(s, c, d);
      c, d := StripSlice(s, e, d);
    }
  }

  lemma PlainBefore(c: char)
    requires Break(c) || Space(c) || c == '='
    ensures c != '\\'
  {
  }

  lemma InsideQuotes(e: string, d: nat)
    requires 1 <= d <= |e| + 1
    ensures (['"'] + e + ['"'])[0..d][1..] == e[..d - 1]
  {
    var s, inner := ['"'] + e + ['"'], e[..d - 1];
    forall i | 0 <= i < d - 1
      ensures s[0..d][1..][i] == inner[i]
    {
      assert s[i + 1] == e[i];
    }
  }

  lemma PieceIsNoToken(t: string, a: nat, b: nat)
    requires Clean(t) && Broken(t) && Stretch(Quoted(t), a, b)
    ensures TokenOf(Quoted(t)[a..b]) == None
  {
    var s := Quoted(t);
    QuotedKeeps(t);
    var p :| 0 <= p < |s| && Break(s[p]);
    assert s[0] == '"';
    var c, d := ValueSlice(s, a, b);
    if a == 0 {
      assert b > 0 && b < |s|;
      InsideQuotes(Escape(t), d);
      NoEarlyEnd(t, d - 1);
    } else if c < d && s[c] == '"' {
      PlainBefore(s[c - 1]);
      assert c == |s| - 1;
      assert s[c..d][1..] == [];
    }
  }

  function Fragments(t: string): seq<string> {
    Lines(Quoted(t) + ['\n'], [])
  }

  lemma {:induction false} NoTokens(lines: seq<string>)
    requires forall k :: 0 <= k < |lines| ==> TokenOf(lines[k]) == None
    ensures TokensOf(lines) == []
  {
    if lines != [] {
      NoTokens(lines[..|lines| - 1]);
    }
  }

  lemma BrokenYieldsNothing(t: string, k: nat)
    requires Clean(t) && Broken(t) && k <= |Fragments(t)|
    ensures TokensOf(Fragments(t)[..k]) == []
  {
    var s := Quoted(t);
    QuotedKeeps(t);
    assert s[0..] == s && s[0..0] == [];
    forall j | 0 <= j < |Fragments(t)|
      ensures TokenOf(Fragments(t)[j]) == None
    {
      LinesAreStretches(s, 0, 0, j);
      var b: nat, c: nat :| Stretch(s, b, c) && Fragments(t)[j] == s[b..c];
      PieceIsNoToken(t, b, c);
    }
    NoTokens(Fragments(t)[..k]);
  }

  // A token small enough to be read back; what the writer extracts is at most 192 characters.
  predicate Readable(t: string) {
    Clean(t) && 0 < Encoded(t) <= MAX_BYTES
  }

  lemma {:induction false} EncodedBound(t: string)
    ensures |t| <= Encoded(t) <= 4 * |t|
  {
    if t != [] {
      EncodedBound(t[1..]);
    }
  }

  lemma ExtractedIsReadable(t: string, alphanumeric: char -> bool)
    requires Useful(t, alphanumeric) && |t| <= 192
    ensures Readable(t)
  {
    EncodedBound(t);
  }

  lemma WholeIsRead(t: string)
    requires Readable(t) && !Broken(t)
    ensures Fragments(t) == [Quoted(t)] && TokensOf(Fragments(t)) == [t]
  {
    QuotedKeeps(t);
    LinesWhole(Quoted(t), []);
    assert [] + Quoted(t) == Quoted(t);
    var s := Quoted(t);
    assert s[0] == '"' && s[|s| - 1] == '"';
    assert StripLeft(s) == s && StripRight(s) == s;
    assert s[1..] == Escape(t) + ['"'];
    DecodeEscaped(t);
    assert TokenOf(s) == Some(t);
    assert [s][..0] == [];
    assert TokensOf([s]) == TokensOf([]) + [t];
  }

  // The tokens the first n lines of the file hold whole.
  function Survivors(ts: seq<string>, n: nat): seq<string> {
    if ts == [] || n == 0 || |Fragments(ts[0])| > n then []
    else (if Broken(ts[0]) then [] else [ts[0]]) + Survivors(ts[1..], n - |Fragments(ts[0])|)
  }

  lemma TakeSplit<T>(a: seq<T>, b: seq<T>, n: nat)
    ensures Take(a + b, n) == if |a| > n then a[..n] else a + Take(b, n - |a|)
  {
  }

  lemma FragmentTokens(t: string, k: nat)
    requires Readable(t) && k <= |Fragments(t)|
    ensures TokensOf(Fragments(t)[..k]) == if Broken(t) || k < |Fragments(t)| then [] else [t]
  {
    if Broken(t) {
      BrokenYieldsNothing(t, k);
    } else {
      WholeIsRead(t);
      if k == 0 {
        assert Fragments(t)[..k] == [];
      } else {
        assert Fragments(t)[..k] == Fragments(t);
      }
    }
  }

  // The first token's lines read back, in front of whatever else is read.
  lemma HeadIsRead(t: string, later: seq<string>)
    requires Readable(t)
    ensures TokensOf(Fragments(t) + later) == (if Broken(t) then [] else [t]) + TokensOf(later)
  {
    var f := Fragments(t);
    TokensAppend(f, later);
    FragmentTokens(t, |f|);
    assert f[..|f|] == f;
  }

  // The file read back, up to any number of lines.
  lemma {:induction false} LinesOfRendered(ts: seq<string>, n: nat)
    requires forall i :: 0 <= i < |ts| ==> Readable(ts[i])
    ensures TokensOf(Take(Lines(Render(ts), []), n)) == Survivors(ts, n)
  {
    if ts != [] {
      FragmentsExist(ts[0]);
      if |Fragments(ts[0])| <= n {
        LinesOfRendered(ts[1..], n - |Fragments(ts[0])|);
      }
      RenderedStep(ts, n);
    }
  }

  // One token more in front of what is read of the rest.
  lemma RenderedStep(ts: seq<string>, n: nat)
    requires ts != [] && Readable(ts[0])
    requires var k := |Fragments(ts[0])|;
             k <= n ==> TokensOf(Take(Lines(Render(ts[1..]), []), n - k)) == Survivors(ts[1..], n - k)
    ensures TokensOf(Take(Lines(Render(ts), []), n)) == Survivors(ts, n)
  {
    var f, rest := Fragments(ts[0]), Lines(Render(ts[1..]), []);
    LinesOfHead(ts);
    TakeSplit(f, rest, n);
    FragmentsExist(ts[0]);
    if |f| > n {
      FragmentTokens(ts[0], n);
    } else {
      HeadIsRead(ts[0], Take(rest, n - |f|));
    }
  }

  lemma LinesOfHead(ts: seq<string>)
    requires ts != [] && Clean(ts[0])
    ensures Lines(Render(ts), []) == Fragments(ts[0]) + Lines(Render(ts[1..]), [])
  {
    QuotedKeeps(ts[0]);
    LinesCut(Quoted(ts[0]), Render(ts[1..]), []);
  }

  lemma FragmentsExist(t: string)
    requires Clean(t)
    ensures Fragments(t) != []
  {
    if !Broken(t) {
      QuotedKeeps(t);
      LinesWhole(Quoted(t), []);
    } else {
      LinesNonEmpty(Quoted(t), []);
    }
  }

  lemma {:induction false} LinesNonEmpty(a: string, begun: string)
    ensures Lines(a + ['\n'], begun) != []
  {
    var u := a + ['\n'];
    if a != [] {
      assert u[1..] == a[1..] + ['\n'];
      LinesNonEmpty(a[1..], begun + [a[0]]);
    }
  }

  // What is read back from a rendered dictionary, for every list of readable tokens: the tokens
  // without a line end that stand whole in the first 512 lines, in order, up to 128 of them.
  lemma RoundTrip(ts: seq<string>)
    requires forall i :: 0 <= i < |ts| ==> Readable(ts[i])
    ensures Parsed(Render(ts)) == Take(Survivors(ts, MAX_LINES), MAX_TOKENS)
  {
    LinesOfRendered(ts, MAX_LINES);
  }

  lemma {:induction false} AllSurvive(ts: seq<string>, n: nat)
    requires forall i :: 0 <= i < |ts| ==> Readable(ts[i]) && !Broken(ts[i])
    ensures Survivors(ts, n) == Take(ts, n)
  {
    if ts != [] && n > 0 {
      var t, rest := ts[0], ts[1..];
      assert Readable(t) && !Broken(t);
      WholeIsRead(t);
      assert |Fragments(t)| == 1 && Survivors(ts, n) == [t] + Survivors(rest, n - 1);
      AllSurvive(rest, n - 1);
      assert ts == [t] + rest;
      TakeSplit([t], rest, n);
    }
  }

  // Without line ends in the tokens, the first 128 come back as they were.
  lemma WholeRoundTrip(ts: seq<string>)
    requires forall i :: 0 <= i < |ts| ==> Readable(ts[i]) && !Broken(ts[i])
    ensures Parsed(Render(ts)) == Take(ts, MAX_TOKENS)
  {
    RoundTrip(ts);
    AllSurvive(ts, MAX_LINES);
  }

  // One token comes back exactly when it holds no line end; otherwise nothing does.
  lemma TokenReturnsExactly(t: string)
    requires Readable(t)
    ensures Parsed(Render([t])) == if Broken(t) then [] else [t]
  {
    RoundTrip([t]);
    assert [t][1..] == [];
    if !Broken(t) {
      AllSurvive([t], MAX_LINES);
    }
  }
}
