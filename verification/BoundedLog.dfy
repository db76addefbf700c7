// Reading a log line by line without ever holding more than a bounded part of a line.
module BoundedLog {
  // ---------- what is meant ----------

  // The length of the first line, its line end included.
  function LineLength(text: string): (n: nat)
    ensures n <= |text| && (text != [] ==> n > 0)
  {
    if text == [] then 0 else if text[0] == '\n' then 1 else 1 + LineLength(text[1..])
  }

  function Prefix(s: string, n: nat): string {
    if |s| <= n then s else s[..n]
  }

  // Every line of the text, cut to at most `limit` characters.
  function CutLines(text: string, limit: nat): seq<string>
    decreases |text|
  {
    if text == [] then []
    else
      var n := LineLength(text);
      [Prefix(text[..n], limit)] + CutLines(text[n..], limit)
  }

  lemma {:induction false} LineShape(text: string)
    requires text != []
    ensures var n := LineLength(text);
            && (forall i :: 0 <= i < n - 1 ==> text[i] != '\n')
            && (text[n - 1] == '\n' || n == |text|)
  {
    if text[0] != '\n' && |text| > 1 {
      LineShape(text[1..]);
    }
  }

  // Nothing of a line within the limit is lost.
  lemma {:induction false} ShortLinesKept(text: string, limit: nat)
    requires forall i :: 0 <= i < |CutLines(text, |text|)| ==> |CutLines(text, |text|)[i]| <= limit
    ensures CutLines(text, limit) == CutLines(text, |text|)
    decreases |text|
  {
    CutsAgree(text, limit, |text|);
  }

  lemma {:induction false} CutsAgree(text: string, limit: nat, whole: nat)
    requires |text| <= whole && forall i :: 0 <= i < |CutLines(text, whole)| ==> |CutLines(text, whole)[i]| <= limit
    ensures CutLines(text, limit) == CutLines(text, whole)
    decreases |text|
  {
    if text != [] {
      var n := LineLength(text);
      var all, rest := CutLines(text, whole), CutLines(text[n..], whole);
      assert all == [text[..n]] + rest;
      assert |all[0]| <= limit;
      assert forall i :: 0 <= i < |rest| ==> rest[i] == all[i + 1];
      CutsAgree(text[n..], limit, whole);
    }
  }

  // ---------- how it is read ----------

  class Handle {
    var rest: string

    constructor (text: string)
      ensures rest == text
    {
      rest := text;
    }

    // At most `limit` characters, and no further than the end of the line.
    method ReadLine(limit: nat) returns (part: string)
      modifies this
      ensures part == Prefix(old(rest)[..LineLength(old(rest))], limit)
      ensures rest == old(rest)[|part|..]
    {
      part := Prefix(rest[..LineLength(rest)], limit);
      rest := rest[|part|..];
    }
  }

  predicate EndsLine(part: string) {
    part != [] && part[|part| - 1] == '\n'
  }

  lemma {:induction false} Skipped(text: string, k: nat)
    requires k < LineLength(text)
    ensures LineLength(text[k..]) == LineLength(text) - k
  {
    if k > 0 {
      Skipped(text[1..], k - 1);
      assert text[1..][k - 1..] == text[k..];
    } else {
      assert text[0..] == text;
    }
  }

  // Drops what is left of the line in pieces of bounded size.
  method SkipLine(h: Handle, limit: nat)
    requires limit > 0
    modifies h
    ensures h.rest == old(h.rest)[LineLength(old(h.rest))..]
  {
    ghost var start := h.rest;
    ghost var length := LineLength(start);
    ghost var gone: nat := 0;
    assert start[0..] == start;
    while true
      invariant gone <= length && h.rest == start[gone..]
      invariant gone == length ==> h.rest == []
      decreases |h.rest|
    {
      ghost var here := h.rest;
      if gone < length {
        Skipped(start, gone);
      }
      var remainder := h.ReadLine(limit);
      if remainder == [] {
        return;
      }
      LineShape(here);
      assert start[gone..][|remainder|..] == start[gone + |remainder|..];
      gone := gone + |remainder|;
      if EndsLine(remainder) {
        assert remainder[|remainder| - 1] == here[|remainder| - 1];
        return;
      }
      if gone == length {
        assert here[LineLength(here) - 1] == remainder[|remainder| - 1];
      }
    }
  }

  // Yields the beginning of a line and moves to the next one.
  method NextLine(h: Handle, limit: nat) returns (line: string)
    requires limit > 0
    modifies h
    ensures line == Prefix(old(h.rest)[..LineLength(old(h.rest))], limit)
    ensures h.rest == old(h.rest)[LineLength(old(h.rest))..]
  {
    ghost var here := h.rest;
    line := h.ReadLine(limit);
    if line == [] {
      return;
    }
    LineShape(here);
    if !EndsLine(line) && |line| >= limit {
      LongLine(here, limit);
      SkipLine(h, limit);
    } else {
      WholeLine(here, limit);
    }
  }

  // What the generator yields is every line of the log, cut to the limit.
  method BoundedLogLines(h: Handle, limit: nat) returns (lines: seq<string>)
    requires limit > 0
    modifies h
    ensures lines == CutLines(old(h.rest), limit) && h.rest == []
  {
    lines := [];
    ghost var text := h.rest;
    while h.rest != []
      invariant CutLines(text, limit) == lines + CutLines(h.rest, limit)
      decreases |h.rest|
    {
      var line := NextLine(h, limit);
      lines := lines + [line];
    }
  }

  // After a cut line, the rest of the line goes; unless it ended exactly at the cut.
  lemma LongLine(text: string, limit: nat)
    requires text != [] && limit > 0 && LineLength(text) >= limit && text[limit - 1] != '\n'
    ensures text[limit..][LineLength(text[limit..])..] == text[LineLength(text)..]
  {
    LineShape(text);
    if limit < LineLength(text) {
      Skipped(text, limit);
    }
  }

  lemma WholeLine(text: string, limit: nat)
    requires text != [] && limit > 0
    requires var part := Prefix(text[..LineLength(text)], limit); EndsLine(part) || |part| < limit
    ensures Prefix(text[..LineLength(text)], limit) == text[..LineLength(text)]
  {
    LineShape(text);
  }
}
