/** The journal file of a managed run: how `events.jsonl` is written and read back (host/store.py).
    The file is a sequence of bytes; JSON itself is a parameter, constrained by `Good`. */
module HostJournal {
  import opened JsonModel
  import opened HostReduce
  import opened TextEncoding

  // ---- lines ----

  /** The characters at which `str.splitlines` ends a line. */
  predicate Breaks(c: char) {
    c in {'\n', '\r', '\U{0B}', '\U{0C}', '\U{1C}', '\U{1D}', '\U{1E}', '\U{85}', '\U{2028}', '\U{2029}'}
  }

  predicate White(c: char) {
    Breaks(c) || c in {'\t', ' ', '\U{1F}', '\U{A0}', '\U{1680}', '\U{202F}', '\U{205F}', '\U{3000}'}
      || '\U{2000}' <= c <= '\U{200A}'
  }

  predicate Blank(line: string) { forall i | 0 <= i < |line| :: White(line[i]) }

  predicate EndsLine(text: string) { text != "" && text[|text| - 1] == '\n' }

  /** Universal newlines: text mode turns "\r\n" and "\r" into "\n" on reading. */
  function Universal(text: string): string {
    if text == "" then ""
    else if text[0] != '\r' then [text[0]] + Universal(text[1..])
    else "\n" + Universal(if |text| > 1 && text[1] == '\n' then text[2..] else text[1..])
  }

  /** Length of the first line, its line ending included. */
  function LineEnd(text: string): (n: nat)
    requires text != ""
    ensures 0 < n <= |text|
  {
    if Breaks(text[0]) then if text[0] == '\r' && |text| > 1 && text[1] == '\n' then 2 else 1
    else if |text| == 1 then 1 else 1 + LineEnd(text[1..])
  }

  function Lines(text: string): seq<string> {
    if text == "" then [] else [text[..LineEnd(text)]] + Lines(text[LineEnd(text)..])
  }

  // ---- records ----

  /** `ManagedEvent.to_json` with `json.dumps`, which takes only some events, and `json.loads` with
      `ManagedEvent.from_json`. */
  datatype Codec = Codec(encodable: ManagedEvent -> bool, encode: ManagedEvent -> string,
                         decode: string -> Option<ManagedEvent>)

  /** What JSON gives: a record is one object whose control characters are escaped; it reads back
      with or without its newline; no proper prefix of it is a record, nor is a part of one record
      followed by another. */
  ghost predicate Good(c: Codec) {
    && (forall e | c.encodable(e) :: Object(c.encode(e)))
    && (forall e | c.encodable(e) :: c.decode(c.encode(e)) == Some(e) && c.decode(c.encode(e) + "\n") == Some(e))
    && (forall e, k: nat | c.encodable(e) && k < |c.encode(e)| :: c.decode(c.encode(e)[..k]) == None)
    && (forall d, e, k: nat | c.encodable(d) && c.encodable(e) && 0 < k <= |c.encode(d)| ::
          c.decode(c.encode(d)[..k] + c.encode(e) + "\n") == None)
  }

  predicate Object(record: string) {
    && |record| >= 2 && record[0] == '{' && record[|record| - 1] == '}'
    && forall i | 0 <= i < |record| :: record[i] >= ' '
  }

  predicate Clean(record: string) { forall i | 0 <= i < |record| :: !Breaks(record[i]) }

  ghost predicate Encodable(c: Codec, events: seq<ManagedEvent>) {
    forall i | 0 <= i < |events| :: c.encodable(events[i])
  }

  /** An event whose record is one line. */
  predicate Fit(c: Codec, e: ManagedEvent) { c.encodable(e) && Clean(c.encode(e)) }

  ghost predicate AllClean(c: Codec, events: seq<ManagedEvent>) {
    forall i | 0 <= i < |events| :: Fit(c, events[i])
  }

  /** The text that appending these events one by one leaves in the file. */
  function Journal(c: Codec, events: seq<ManagedEvent>): string {
    if events == [] then "" else Journal(c, events[..|events| - 1]) + c.encode(events[|events| - 1]) + "\n"
  }

  function LoadLines(c: Codec, lines: seq<string>): Result<seq<ManagedEvent>> {
    if lines == [] then Ok([])
    else if Blank(lines[0]) then LoadLines(c, lines[1..])
    else
      var e := c.decode(lines[0]);
      if e.None? then if |lines| == 1 && !EndsLine(lines[0]) then Ok([]) else Err(Unreadable)
      else Prepend([e.value], LoadLines(c, lines[1..]))
  }

  function Prepend(events: seq<ManagedEvent>, r: Result<seq<ManagedEvent>>): Result<seq<ManagedEvent>> {
    if r.Err? then r else Ok(events + r.value)
  }

  function LoadText(c: Codec, text: string): Result<seq<ManagedEvent>> { LoadLines(c, Lines(text)) }

  function LoadFile(c: Codec, file: seq<Byte>): Result<seq<ManagedEvent>> {
    var text := Decode(file);
    if text.None? then Err(Unreadable) else LoadText(c, Universal(text.value))
  }

  /** `load_events` as the source writes it, after the file has been read and split. */
  method LoadEvents(c: Codec, lines: seq<string>) returns (r: Result<seq<ManagedEvent>>)
    ensures r == LoadLines(c, lines)
  {
    var events: seq<ManagedEvent> := [];
    assert lines[0..] == lines;
    PrependNothing(LoadLines(c, lines));
    for i := 0 to |lines|
      invariant LoadLines(c, lines) == Prepend(events, LoadLines(c, lines[i..]))
    {
      assert lines[i..][1..] == lines[i + 1..];
      if Blank(lines[i]) { continue; }
      var e := c.decode(lines[i]);
      if e.None? {
        if i + 1 == |lines| && !EndsLine(lines[i]) {
          assert events + [] == events;
          return Ok(events);
        }
        return Err(Unreadable);
      }
      PrependTwice(events, [e.value], LoadLines(c, lines[i + 1..]));
      events := events + [e.value];
    }
    assert events + [] == events;
    return Ok(events);
  }

  lemma PrependTwice(a: seq<ManagedEvent>, b: seq<ManagedEvent>, r: Result<seq<ManagedEvent>>)
    ensures Prepend(a, Prepend(b, r)) == Prepend(a + b, r)
  {
    if r.Ok? { assert a + (b + r.value) == a + b + r.value; }
  }

  lemma PrependNothing(r: Result<seq<ManagedEvent>>)
    ensures Prepend([], r) == r
  {
    if r.Ok? { assert [] + r.value == r.value; }
  }

  // ---- reading back what was written ----

  /** A text that ends in a newline keeps its lines, whatever follows. */
  lemma {:induction false} LinesAppend(a: string, b: string)
    requires EndsLine(a)
    ensures Lines(a + b) == Lines(a) + Lines(b)
    decreases |a|
  {
    hide LineEnd, Breaks;
    var n := LineEnd(a);
    LineEndAppend(a, b);
    assert (a + b)[..n] == a[..n] && (a + b)[n..] == a[n..] + b;
    if n < |a| {
      LinesAppend(a[n..], b);
    } else {
      assert a[n..] == "" && a[n..] + b == b;
    }
  }

  lemma {:induction false} LineEndAppend(a: string, b: string)
    requires EndsLine(a)
    ensures LineEnd(a + b) == LineEnd(a)
  {
    if !Breaks(a[0]) {
      assert (a + b)[1..] == a[1..] + b;
      LineEndAppend(a[1..], b);
    }
  }

  lemma {:induction false} LoadAppend(c: Codec, a: seq<string>, b: seq<string>)
    requires a != [] ==> EndsLine(a[|a| - 1])
    ensures LoadLines(c, a + b)
         == if LoadLines(c, a).Err? then LoadLines(c, a) else Prepend(LoadLines(c, a).value, LoadLines(c, b))
  {
    if a == [] {
      assert a + b == b;
      PrependNothing(LoadLines(c, b));
    } else {
      assert (a + b)[1..] == a[1..] + b;
      LoadAppend(c, a[1..], b);
      var e := c.decode(a[0]);
      if !Blank(a[0]) && e.Some? && LoadLines(c, a[1..]).Ok? {
        PrependTwice([e.value], LoadLines(c, a[1..]).value, LoadLines(c, b));
      }
    }
  }

  /** A line without a break inside is one line. */
  lemma {:induction false} SingleLine(body: string)
    requires Clean(body)
    ensures body != "" ==> LineEnd(body) == |body|
    ensures LineEnd(body + "\n") == |body| + 1
  {
    if body != "" {
      assert (body + "\n")[1..] == body[1..] + "\n";
      SingleLine(body[1..]);
    }
  }

  lemma LineOf(body: string)
    requires Clean(body)
    ensures Lines(body + "\n") == [body + "\n"] && (body != "" ==> Lines(body) == [body])
  {
    SingleLine(body);
    var line := body + "\n";
    assert line[..|line|] == line && body[..|body|] == body;
  }

  /** The last line of a text that ends in a newline ends in it too. */
  lemma {:induction false} LastLine(text: string)
    requires EndsLine(text)
    ensures Lines(text) != [] && EndsLine(Lines(text)[|Lines(text)| - 1])
    decreases |text|
  {
    hide LineEnd;
    var n := LineEnd(text);
    if n == |text| {
      assert text[..n] == text && Lines(text[n..]) == [];
    } else {
      LastLine(text[n..]);
    }
  }

  /** Loading a text that ends in a newline does not depend on what follows it. */
  lemma LoadAfter(c: Codec, a: string, b: string)
    requires a == "" || EndsLine(a)
    ensures LoadText(c, a + b)
         == if LoadText(c, a).Err? then LoadText(c, a) else Prepend(LoadText(c, a).value, LoadText(c, b))
  {
    hide Lines, LoadLines, Prepend;
    if a == "" {
      assert a + b == b;
      LoadNothing(c);
      PrependNothing(LoadText(c, b));
    } else {
      LinesAppend(a, b);
      LastLine(a);
      LoadAppend(c, Lines(a), Lines(b));
    }
  }

  lemma LoadNothing(c: Codec)
    ensures LoadText(c, "") == Ok([])
  {
  }

  lemma JournalEndsLine(c: Codec, events: seq<ManagedEvent>)
    ensures Journal(c, events) == "" || EndsLine(Journal(c, events))
    ensures Journal(c, events) == "" <==> events == []
  {
  }

  lemma LoadOneLine(c: Codec, line: string)
    requires !Blank(line)
    ensures LoadLines(c, [line])
         == if c.decode(line).Some? then Ok([c.decode(line).value])
            else if EndsLine(line) then Err(Unreadable) else Ok([])
  {
    var lines := [line];
    assert lines[1..] == [];
    if c.decode(line).Some? { assert [c.decode(line).value] + [] == [c.decode(line).value]; }
  }

  lemma LoadRecord(c: Codec, e: ManagedEvent)
    requires Good(c) && Fit(c, e)
    ensures LoadText(c, c.encode(e) + "\n") == Ok([e])
  {
    var line := c.encode(e) + "\n";
    LineOf(c.encode(e));
    assert line[0] == '{';
    assert c.decode(line) == Some(e);
    LoadOneLine(c, line);
  }

  lemma {:induction false} FirstBreak(text: string, k: nat)
    requires k < |text| && Breaks(text[k]) && text[k] != '\r' && forall i | 0 <= i < k :: !Breaks(text[i])
    ensures LineEnd(text) == k + 1
  {
    if k > 0 { FirstBreak(text[1..], k - 1); }
  }

  /** A record with a line-breaking character in it is cut in two and can never be read. */
  lemma LoadDirtyRecord(c: Codec, e: ManagedEvent)
    requires Good(c) && c.encodable(e) && !Clean(c.encode(e))
    ensures LoadText(c, c.encode(e) + "\n").Err?
  {
    var record := c.encode(e);
    assert Object(record);
    var k := FirstDirty(record);
    var text := record + "\n";
    FirstBreak(text, k);
    assert k + 1 < |record|;
    var line := text[..k + 1];
    assert line == record[..k + 1] && line[0] == '{';
    assert c.decode(line) == None;
    assert Lines(text)[0] == line && Lines(text)[1..] == Lines(text[k + 1..]) != [];
  }

  function FirstDirty(record: string): (k: nat)
    requires !Clean(record)
    ensures k < |record| && Breaks(record[k]) && forall i | 0 <= i < k :: !Breaks(record[i])
  {
    if Breaks(record[0]) then 0 else assert !Clean(record[1..]); 1 + FirstDirty(record[1..])
  }

  lemma NothingIsClean(c: Codec)
    ensures AllClean(c, []) && Journal(c, []) == ""
  {
  }

  lemma JournalStep(c: Codec, events: seq<ManagedEvent>)
    requires events != []
    ensures var before, e := events[..|events| - 1], events[|events| - 1];
            && Journal(c, events) == Journal(c, before) + (c.encode(e) + "\n")
            && (AllClean(c, events) <==> AllClean(c, before) && Fit(c, e))
            && (Encodable(c, events) <==> Encodable(c, before) && c.encodable(e))
  {
    hide Clean;
    var before, e := events[..|events| - 1], events[|events| - 1];
    assert Journal(c, before) + c.encode(e) + "\n" == Journal(c, before) + (c.encode(e) + "\n");
    assert events == before + [e];
  }

  /** The journal of a run can be read back exactly when no record holds a character at which
      `splitlines` cuts; U+0085, U+2028 and U+2029 are written unescaped. */
  lemma {:induction false} JournalReadsBack(c: Codec, events: seq<ManagedEvent>)
    requires Good(c) && Encodable(c, events)
    ensures LoadText(c, Journal(c, events)).Ok? <==> AllClean(c, events)
    ensures AllClean(c, events) ==> LoadText(c, Journal(c, events)) == Ok(events)
  {
    hide Good, Clean, LoadText, Journal, AllClean, Encodable, EndsLine;
    if events == [] {
      LoadNothing(c);
      NothingIsClean(c);
    } else {
      var before, e := events[..|events| - 1], events[|events| - 1];
      assert events == before + [e];
      JournalStep(c, events);
      JournalReadsBack(c, before);
      JournalEndsLine(c, before);
      var text := c.encode(e) + "\n";
      LoadAfter(c, Journal(c, before), text);
      if Clean(c.encode(e)) { LoadRecord(c, e); } else { LoadDirtyRecord(c, e); }
    }
  }

  /** How many records lie wholly inside the first `k` characters; the last may lack its newline. */
  ghost function Whole(c: Codec, events: seq<ManagedEvent>, k: nat): (n: nat)
    ensures n <= |events|
  {
    if events == [] then 0
    else if |Journal(c, events)| - 1 <= k then |events| else Whole(c, events[..|events| - 1], k)
  }

  lemma {:induction false} WholeIsLargest(c: Codec, events: seq<ManagedEvent>, k: nat, m: nat)
    requires m <= |events|
    ensures m <= Whole(c, events, k) <==> m == 0 || |Journal(c, events[..m])| - 1 <= k
  {
    if m == |events| {
      assert events[..m] == events;
      if events != [] {
        JournalGrows(c, events, |events| - 1);
        if m <= Whole(c, events[..|events| - 1], k) { assert false; }
      }
    } else {
      var before := events[..|events| - 1];
      assert before[..m] == events[..m];
      WholeIsLargest(c, before, k, m);
      JournalGrows(c, events, m);
    }
  }

  lemma {:induction false} JournalGrows(c: Codec, events: seq<ManagedEvent>, m: nat)
    requires m <= |events|
    ensures Journal(c, events[..m]) <= Journal(c, events)
    ensures m < |events| ==> |Journal(c, events[..m])| < |Journal(c, events)|
  {
    if m == |events| {
      assert events[..m] == events;
    } else {
      assert events[..|events| - 1][..m] == events[..m];
      JournalGrows(c, events[..|events| - 1], m);
    }
  }

  /** What is left of one record: nothing of it, a torn tail that is dropped, or the whole. */
  lemma LoadPiece(c: Codec, e: ManagedEvent, m: nat)
    requires Good(c) && Fit(c, e) && m <= |c.encode(e)| + 1
    ensures LoadText(c, (c.encode(e) + "\n")[..m]) == Ok(if m >= |c.encode(e)| then [e] else [])
  {
    var record := c.encode(e);
    var text := record + "\n";
    assert Object(record);
    if m == 0 {
      assert text[..m] == "";
      LoadNothing(c);
    } else if m <= |record| {
      var line := text[..m];
      assert line == record[..m] && line[0] == '{';
      assert Clean(line);
      LineOf(line);
      assert !EndsLine(line);
      LoadOneLine(c, line);
      assert m == |record| ==> line == record;
    } else {
      assert text[..m] == text;
      LoadRecord(c, e);
    }
  }

  /** Torn-journal recovery: every character prefix of a journal loads exactly the events whose
      record lies wholly inside it. */
  lemma {:induction false} TornJournalRecovers(c: Codec, events: seq<ManagedEvent>, k: nat)
    requires Good(c) && AllClean(c, events) && k <= |Journal(c, events)|
    ensures LoadText(c, Journal(c, events)[..k]) == Ok(events[..Whole(c, events, k)])
  {
    hide Good, Clean, LoadText;
    if events == [] {
      LoadNothing(c);
    } else {
      var before, e := events[..|events| - 1], events[|events| - 1];
      var start, text := Journal(c, before), c.encode(e) + "\n";
      assert Journal(c, events) == start + text;
      if k < |start| {
        TornJournalRecovers(c, before, k);
        assert Journal(c, events)[..k] == start[..k];
        assert events[..Whole(c, before, k)] == before[..Whole(c, before, k)];
      } else {
        JournalReadsBack(c, before);
        JournalEndsLine(c, before);
        WholeIsLargest(c, before, k, |before|);
        assert before[..|before|] == before;
        assert Journal(c, events)[..k] == start + text[..k - |start|];
        LoadAfter(c, start, text[..k - |start|]);
        LoadPiece(c, e, k - |start|);
        assert before + [] == before == events[..|before|] && before + [e] == events == events[..|events|];
      }
    }
  }

  /** A bad record that ends in a newline is an error wherever it stands. */
  lemma BadRecordIsAnError(c: Codec, before: string, line: string, after: string)
    requires before == "" || EndsLine(before)
    requires Clean(line) && !Blank(line) && c.decode(line + "\n") == None
    ensures LoadText(c, before + (line + "\n" + after)).Err?
  {
    var bad := line + "\n";
    LoadAfter(c, before, bad + after);
    LoadAfter(c, bad, after);
    LineOf(line);
    var k :| 0 <= k < |line| && !White(line[k]);
    assert bad[k] == line[k];
  }

  /** `emit` appends without cutting a torn tail. The journal stays readable exactly when it was
      empty or ended in a newline. */
  lemma AppendAfterTear(c: Codec, events: seq<ManagedEvent>, torn: ManagedEvent, k: nat, e: ManagedEvent)
    requires Good(c) && AllClean(c, events) && Fit(c, torn) && Fit(c, e)
    requires k <= |c.encode(torn)| + 1
    ensures var file := Journal(c, events) + (c.encode(torn) + "\n")[..k];
            && LoadText(c, file).Ok?
            && (LoadText(c, file + (c.encode(e) + "\n")).Ok? <==> file == "" || EndsLine(file))
  {
    hide LoadText;
    var start, piece, added := Journal(c, events), (c.encode(torn) + "\n")[..k], c.encode(e) + "\n";
    var file := start + piece;
    JournalEndsLine(c, events);
    JournalReadsBack(c, events);
    LoadAfter(c, start, piece);
    LoadPiece(c, torn, k);
    LoadRecord(c, e);
    if k == 0 || k == |c.encode(torn)| + 1 {
      assert k == 0 ==> file == start;
      assert k > 0 ==> file[|file| - 1] == piece[|piece| - 1] == '\n';
      LoadAfter(c, file, added);
    } else {
      assert piece == c.encode(torn)[..k];
      assert file[|file| - 1] == piece[|piece| - 1];
      assert !EndsLine(file);
      var line := piece + c.encode(e);
      assert line[0] == c.encode(torn)[0];
      assert Object(c.encode(torn));
      assert !White(line[0]);
      BadRecordIsAnError(c, start, line, "");
      assert start + (line + "\n" + "") == file + added;
    }
  }

  // ---- the same, for the bytes in the file ----

  lemma {:induction false} UniversalIdentity(text: string)
    requires forall i | 0 <= i < |text| :: text[i] != '\r'
    ensures Universal(text) == text
  {
    if text != "" { UniversalIdentity(text[1..]); }
  }

  lemma {:induction false} NoReturns(c: Codec, events: seq<ManagedEvent>)
    requires Good(c) && Encodable(c, events)
    ensures forall i | 0 <= i < |Journal(c, events)| :: Journal(c, events)[i] != '\r'
  {
    if events != [] {
      NoReturns(c, events[..|events| - 1]);
      assert Object(c.encode(events[|events| - 1]));
    }
  }

  ghost function FileOf(c: Codec, events: seq<ManagedEvent>): seq<Byte> { Utf8(Journal(c, events)) }

  /** The file of a clean journal, cut after any number of bytes: cut inside a character it does not
      even decode, otherwise exactly the whole records are recovered. */
  lemma TornFileRecovers(c: Codec, events: seq<ManagedEvent>, b: nat)
    requires Good(c) && AllClean(c, events) && b <= |FileOf(c, events)|
    ensures var text := Journal(c, events);
            var k := Chars(text, b);
            LoadFile(c, FileOf(c, events)[..b])
              == if |Utf8(text[..k])| == b then Ok(events[..Whole(c, events, k)]) else Err(Unreadable)
  {
    hide Good, Utf8, LoadText;
    var text := Journal(c, events);
    DecodePrefix(text, b);
    var k := Chars(text, b);
    NoReturns(c, events);
    UniversalIdentity(text[..k]);
    TornJournalRecovers(c, events, k);
  }

  /** The file on disk reads back as the events that were appended, exactly when all are clean. */
  lemma FileReadsBack(c: Codec, events: seq<ManagedEvent>)
    requires Good(c) && Encodable(c, events)
    ensures LoadFile(c, FileOf(c, events)).Ok? <==> AllClean(c, events)
    ensures AllClean(c, events) ==> LoadFile(c, FileOf(c, events)) == Ok(events)
  {
    hide Good, Clean, LoadText;
    DecodeWhole(Journal(c, events));
    NoReturns(c, events);
    UniversalIdentity(Journal(c, events));
    JournalReadsBack(c, events);
  }
}
