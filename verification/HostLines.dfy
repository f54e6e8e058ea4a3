/** What reading a journal in text mode and cutting it with `splitlines` does (host/store.py:114-132): lines are
    the pieces between the ends of lines, and the translation of newlines keeps them. */
module HostLines {
  import opened HostJournal

  /** The code points that end a line. */
  lemma BreaksAre(c: char)
    ensures var v := c as int;
            Breaks(c) <==> 10 <= v <= 13 || 28 <= v <= 30 || v == 133 || 8232 <= v <= 8233
  {
  }

  /** The code points of white space. */
  lemma WhiteIs(c: char)
    ensures var v := c as int;
            White(c) <==> || 9 <= v <= 13 || 28 <= v <= 32 || v == 133 || v == 160 || v == 5760 || 8192 <= v <= 8202
                          || 8232 <= v <= 8233 || v == 8239 || v == 8287 || v == 12288
  {
  }

  function Concat(lines: seq<string>): string { if lines == [] then "" else lines[0] + Concat(lines[1..]) }

  predicate ReturnEnds(line: string) { line != "" && line[|line| - 1] == '\r' }

  predicate NewlineStarts(text: string) { text != "" && text[0] == '\n' }

  /** A line ends at its first break, except that a return takes the newline behind it along. */
  predicate IsLine(line: string, last: bool) {
    && line != ""
    && (forall i | 0 <= i < |line| - 1 && Breaks(line[i]) :: i == |line| - 2 && line[i] == '\r' && line[i + 1] == '\n')
    && (last || Breaks(line[|line| - 1]))
  }

  predicate AreLines(lines: seq<string>) {
    && (forall i | 0 <= i < |lines| :: IsLine(lines[i], i == |lines| - 1))
    && (forall i | 0 <= i < |lines| - 1 :: !(ReturnEnds(lines[i]) && NewlineStarts(lines[i + 1])))
  }

  lemma {:induction false} FirstLine(text: string)
    requires text != ""
    ensures var n := LineEnd(text);
            IsLine(text[..n], text[n..] == "") && !(ReturnEnds(text[..n]) && NewlineStarts(text[n..]))
  {
    if !Breaks(text[0]) && |text| > 1 {
      FirstLine(text[1..]);
      var n := LineEnd(text[1..]);
      assert text[..n + 1] == [text[0]] + text[1..][..n] && text[n + 1..] == text[1..][n..];
    }
  }

  lemma LinesGoOn(text: string)
    requires text != ""
    ensures Lines(text) == [text[..LineEnd(text)]] + Lines(text[LineEnd(text)..])
    ensures Lines(text)[1..] == Lines(text[LineEnd(text)..])
    ensures text[LineEnd(text)..] == "" <==> |Lines(text)| == 1
  {
  }

  lemma StartsWithItsFirst(text: string)
    ensures NewlineStarts(text) <==> |Lines(text)| > 0 && NewlineStarts(Lines(text)[0])
  {
  }

  lemma LineThenLines(line: string, others: seq<string>)
    requires IsLine(line, others == []) && AreLines(others)
    requires others != [] ==> !(ReturnEnds(line) && NewlineStarts(others[0]))
    ensures AreLines([line] + others)
  {
    hide IsLine;
    var lines := [line] + others;
    forall i | 0 <= i < |lines| ensures IsLine(lines[i], i == |lines| - 1) {
      if i > 0 { assert lines[i] == others[i - 1]; }
    }
    forall i | 0 <= i < |lines| - 1 ensures !(ReturnEnds(lines[i]) && NewlineStarts(lines[i + 1])) {
      assert lines[i + 1] == others[i];
      if i > 0 { assert lines[i] == others[i - 1]; }
    }
  }

  lemma ConcatFirst(line: string, others: seq<string>)
    ensures Concat([line] + others) == line + Concat(others)
  {
    assert ([line] + others)[1..] == others;
  }

  /** Nothing is lost or added, and the pieces are lines. */
  lemma {:induction false} LinesAre(text: string)
    ensures Concat(Lines(text)) == text && AreLines(Lines(text))
    decreases |text|
  {
    hide LineEnd, IsLine, Breaks, AreLines, ReturnEnds, NewlineStarts;
    if text == "" {
      NoLines();
    } else {
      hide Lines, Concat;
      var n := LineEnd(text);
      var rest := text[n..];
      FirstLine(text);
      LinesGoOn(text);
      StartsWithItsFirst(rest);
      LinesAre(rest);
      LineThenLines(text[..n], Lines(rest));
      ConcatFirst(text[..n], Lines(rest));
      assert text == text[..n] + rest;
    }
  }

  lemma NoLines()
    ensures Lines("") == [] && AreLines([])
  {
  }

  // ---- universal newlines ----

  /** A line whose end is written as a newline. */
  function Unix(line: string): string {
    var n := |line|;
    if n >= 2 && line[n - 2..] == "\r\n" then line[..n - 2] + "\n"
    else if ReturnEnds(line) then line[..n - 1] + "\n"
    else line
  }

  /** How many characters are read as one. */
  function Together(text: string): nat
    requires text != ""
  {
    if text[0] == '\r' && |text| > 1 && text[1] == '\n' then 2 else 1
  }

  lemma UniversalStep(text: string)
    requires text != ""
    ensures Together(text) <= |text|
    ensures Universal(text) == [if text[0] == '\r' then '\n' else text[0]] + Universal(text[Together(text)..])
  {
  }

  lemma Regroup(a: string, b: string, c: string)
    ensures a + (b + c) == (a + b) + c
  {
  }

  lemma CutsAlike(a: string, b: string)
    requires a != "" && !(ReturnEnds(a) && NewlineStarts(b))
    ensures var k := Together(a);
            k <= |a| && Together(a + b) == k && (a + b)[k..] == a[k..] + b && (a + b)[0] == a[0]
            && !(ReturnEnds(a[k..]) && NewlineStarts(b))
  {
  }

  lemma {:induction false} UniversalSplits(a: string, b: string)
    requires !(ReturnEnds(a) && NewlineStarts(b))
    ensures Universal(a + b) == Universal(a) + Universal(b)
    decreases |a|
  {
    if a == "" {
      assert a + b == b;
    } else {
      UniversalStep(a);
      UniversalStep(a + b);
      CutsAlike(a, b);
      hide Universal, Together, ReturnEnds, NewlineStarts;
      var rest := a[Together(a)..];
      UniversalSplits(rest, b);
      Regroup([if a[0] == '\r' then '\n' else a[0]], Universal(rest), Universal(b));
    }
  }

  lemma ReturnIsNewline()
    ensures Universal("\r") == Universal("\r\n") == "\n"
  {
    assert Universal("\r\n") == "\n" + Universal("");
    assert Universal("\r") == "\n" + Universal("");
  }

  lemma UniversalEnd(body: string, end: string)
    requires forall i | 0 <= i < |body| :: body[i] != '\r'
    requires end == "\r" || end == "\r\n"
    ensures Universal(body + end) == body + "\n"
  {
    ReturnIsNewline();
    UniversalIdentity(body);
    hide Universal;
    UniversalSplits(body, end);
  }

  lemma UniversalLine(line: string, last: bool)
    requires IsLine(line, last)
    ensures Universal(line) == Unix(line)
  {
    hide Universal;
    var n := |line|;
    if n >= 2 && line[n - 2..] == "\r\n" {
      UniversalEnd(line[..n - 2], line[n - 2..]);
      assert line == line[..n - 2] + line[n - 2..];
    } else if ReturnEnds(line) {
      UniversalEnd(line[..n - 1], line[n - 1..]);
      assert line == line[..n - 1] + line[n - 1..];
    } else {
      UniversalIdentity(line);
    }
  }

  lemma {:induction false} LineEndAt(text: string, n: nat)
    requires 0 < n <= |text| && forall i | 0 <= i < n - 1 :: !Breaks(text[i])
    requires text[n - 1] != '\r' && (n == |text| || Breaks(text[n - 1]))
    ensures LineEnd(text) == n
  {
    if n > 1 { LineEndAt(text[1..], n - 1); }
  }

  lemma UnixIsLine(line: string, rest: string)
    requires IsLine(line, rest == "")
    ensures Unix(line) != "" && LineEnd(Unix(line) + rest) == |Unix(line)|
  {
    LineEndAt(Unix(line) + rest, |Unix(line)|);
  }

  /** Translated newlines keep the lines, each with its end written as a newline. */
  lemma {:induction false} UniversalKeepsLines(text: string)
    ensures var raw, read := Lines(text), Lines(Universal(text));
            |read| == |raw| && forall i | 0 <= i < |raw| :: read[i] == Unix(raw[i])
    decreases |text|
  {
    hide LineEnd, IsLine, Breaks, Unix, ReturnEnds, NewlineStarts;
    if text == "" {
      NoLines();
      assert Universal(text) == text;
    } else {
      hide Lines, Universal;
      var n := LineEnd(text);
      var line, rest := text[..n], text[n..];
      assert text == line + rest;
      FirstLine(text);
      UniversalSplits(line, rest);
      UniversalLine(line, rest == "");
      UniversalKeepsLines(rest);
      NothingRead(rest);
      UnixIsLine(line, Universal(rest));
      var all := Universal(text);
      assert all[|Unix(line)|..] == Universal(rest) && all[..|Unix(line)|] == Unix(line);
      LinesGoOn(text);
      LinesGoOn(all);
    }
  }

  lemma NothingRead(text: string)
    ensures Universal(text) == "" <==> text == ""
  {
  }
}
