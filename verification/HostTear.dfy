/** A recorder on a journal whose last append was cut short (host/store.py:62-92, 105-132). */
module HostTear {
  import opened HostReduce
  import opened HostJournal
  import opened HostStore
  import opened TextEncoding

  /** The first `k` characters of a record and its newline. */
  function Piece(c: Codec, torn: ManagedEvent, k: nat): string
    requires k <= |c.encode(torn)| + 1
  {
    (c.encode(torn) + "\n")[..k]
  }

  /** The events that are still read: a record is whole without its newline. */
  function Seen(c: Codec, events: seq<ManagedEvent>, torn: ManagedEvent, k: nat): seq<ManagedEvent> {
    if k < |c.encode(torn)| then events else events + [torn]
  }

  ghost function TornFile(c: Codec, events: seq<ManagedEvent>, torn: ManagedEvent, k: nat): seq<Byte>
    requires k <= |c.encode(torn)| + 1
  {
    FileOf(c, events) + Utf8(Piece(c, torn, k))
  }

  lemma LoadOfText(c: Codec, text: string)
    requires forall i | 0 <= i < |text| :: text[i] != '\r'
    ensures LoadFile(c, Utf8(text)) == LoadText(c, text)
  {
    hide LoadText;
    DecodeWhole(text);
    UniversalIdentity(text);
  }

  lemma PieceHasNoReturns(c: Codec, e: ManagedEvent, k: nat)
    requires Good(c) && Fit(c, e) && k <= |c.encode(e)| + 1
    ensures forall i | 0 <= i < k :: Piece(c, e, k)[i] != '\r'
  {
    assert Object(c.encode(e));
  }

  lemma TornFileIs(c: Codec, events: seq<ManagedEvent>, torn: ManagedEvent, k: nat)
    requires k <= |c.encode(torn)| + 1
    ensures TornFile(c, events, torn, k) == Utf8(Journal(c, events) + Piece(c, torn, k))
  {
    Utf8Append(Journal(c, events), Piece(c, torn, k));
  }

  lemma LoadTorn(c: Codec, events: seq<ManagedEvent>, torn: ManagedEvent, k: nat)
    requires Good(c) && AllClean(c, events) && Fit(c, torn) && k <= |c.encode(torn)| + 1
    ensures LoadFile(c, TornFile(c, events, torn, k)) == Ok(Seen(c, events, torn, k))
  {
    hide Good, LoadFile, LoadText, Fit;
    CleanIsEncodable(c, events);
    NoReturns(c, events);
    PieceHasNoReturns(c, torn, k);
    TornFileIs(c, events, torn, k);
    LoadOfText(c, Journal(c, events) + Piece(c, torn, k));
    JournalEndsLine(c, events);
    JournalReadsBack(c, events);
    LoadAfter(c, Journal(c, events), Piece(c, torn, k));
    LoadPiece(c, torn, k);
    assert events + [] == events;
  }

  /** A cache of the journal before the tear is not newer than the journal. */
  lemma CacheIsShort(c: Codec, events: seq<ManagedEvent>, r: Recorder)
    requires Cached(c, events, r)
    ensures r.knownSize <= |FileOf(c, events)|
  {
    var k: nat :| k <= |events| && Replays(events[..k]) && r == Snapshot(c, events, k);
    var short, long := Journal(c, events[..k]), Journal(c, events);
    JournalGrows(c, events, k);
    assert long == short + long[|short|..];
    Utf8Append(short, long[|short|..]);
  }

  lemma NothingTorn(c: Codec, events: seq<ManagedEvent>, torn: ManagedEvent)
    ensures TornFile(c, events, torn, 0) == FileOf(c, events)
  {
    assert Piece(c, torn, 0) == "";
  }

  lemma SyncAfterTear(c: Codec, events: seq<ManagedEvent>, torn: ManagedEvent, k: nat, r: Recorder)
    requires Good(c) && AllClean(c, events) && Fit(c, torn) && k <= |c.encode(torn)| + 1
    requires Replays(events + [torn]) && Replays(events) && Cached(c, events, r)
    ensures var file := TornFile(c, events, torn, k);
            Synchronized(c, r, file) == Ok(Recorder(Fold(Seen(c, events, torn, k)).value, |file|))
  {
    hide Good, LoadFile, Fold, Cached, AllClean;
    if k == 0 {
      NothingTorn(c, events, torn);
      ObjectOf(c, torn);
      SyncIsCurrent(c, events, r);
    } else {
      CacheIsShort(c, events, r);
      Utf8Grows(Piece(c, torn, k));
      LoadTorn(c, events, torn, k);
      ReplayedFold(Seen(c, events, torn, k));
    }
  }

  lemma ObjectOf(c: Codec, e: ManagedEvent)
    requires Good(c) && c.encodable(e)
    ensures Object(c.encode(e))
  {
  }

  lemma LoadAfterTear(c: Codec, events: seq<ManagedEvent>, torn: ManagedEvent, k: nat, e: ManagedEvent)
    requires Good(c) && AllClean(c, events) && Fit(c, torn) && Fit(c, e) && k <= |c.encode(torn)| + 1
    ensures LoadFile(c, TornFile(c, events, torn, k) + Line(c, e)).Ok? <==> k == 0 || k == |c.encode(torn)| + 1
  {
    hide Good, LoadFile, LoadText, FileOf;
    var text, added := Journal(c, events) + Piece(c, torn, k), c.encode(e) + "\n";
    CleanIsEncodable(c, events);
    NoReturns(c, events);
    PieceHasNoReturns(c, torn, k);
    PieceHasNoReturns(c, e, |c.encode(e)| + 1);
    assert Piece(c, e, |c.encode(e)| + 1) == added;
    TornFileIs(c, events, torn, k);
    Utf8Append(text, added);
    LoadOfText(c, text + added);
    AppendAfterTear(c, events, torn, k, e);
    EndOfPiece(c, events, torn, k);
  }

  lemma EndOfPiece(c: Codec, events: seq<ManagedEvent>, torn: ManagedEvent, k: nat)
    requires Good(c) && Fit(c, torn) && k <= |c.encode(torn)| + 1
    ensures var text := Journal(c, events) + Piece(c, torn, k);
            text == "" || EndsLine(text) <==> k == 0 || k == |c.encode(torn)| + 1
  {
    hide Journal;
    JournalEndsLine(c, events);
    ObjectOf(c, torn);
    var journal, piece := Journal(c, events), Piece(c, torn, k);
    if k == 0 {
      assert journal + piece == journal;
    } else {
      assert (journal + piece)[|journal + piece| - 1] == piece[k - 1];
    }
  }

  /** `emit` on a torn journal, however stale the recorder: the event is accepted exactly when the reducer
      accepts it on what is still read and it can be written. It is appended to the tail as it is, and
      the journal loads afterwards exactly when the tear took nothing or everything of the last record. */
  lemma EmitAfterTear(c: Codec, events: seq<ManagedEvent>, torn: ManagedEvent, k: nat, r: Recorder, body: Body,
                      at: real)
    requires Good(c) && AllClean(c, events) && Fit(c, torn) && k <= |c.encode(torn)| + 1
    requires Replays(events + [torn]) && Replays(events) && Cached(c, events, r)
    ensures var file, seen := TornFile(c, events, torn, k), Seen(c, events, torn, k);
            var m, e := Emitted(c, r, file, body, at), ManagedEvent(|seen| + 1, at, body);
            && (m.result.Ok? <==> Fold(seen + [e]).Ok? && c.encodable(e))
            && (m.result.Ok? ==> m.result.value == e && m.file == file + Line(c, e))
            && (m.result.Ok? && Clean(c.encode(e)) ==>
                  (LoadFile(c, m.file).Ok? <==> k == 0 || k == |c.encode(torn)| + 1))
            && (m.result.Err? ==> m.file == file)
  {
    hide Good, LoadFile, FileOf, TornFile, Fold, Apply, Line, Synchronized, Cached, AllClean;
    var file, seen := TornFile(c, events, torn, k), Seen(c, events, torn, k);
    var e := ManagedEvent(|seen| + 1, at, body);
    SyncAfterTear(c, events, torn, k, r);
    ReplayedFold(seen);
    FoldAppend(seen, e);
    if c.encodable(e) && Clean(c.encode(e)) { LoadAfterTear(c, events, torn, k, e); }
  }

  /** A tear inside a character: no recorder ever emits again, and the file stays as it is. */
  lemma NobodyEmitsAfterACutCharacter(c: Codec, events: seq<ManagedEvent>, torn: ManagedEvent, b: nat, r: Recorder,
                                      body: Body, at: real)
    requires Good(c) && AllClean(c, events) && Fit(c, torn) && Cached(c, events, r)
    requires |FileOf(c, events)| <= b <= |FileOf(c, events + [torn])|
    requires var text := Journal(c, events + [torn]); |Utf8(text[..Chars(text, b)])| != b
    ensures var file := FileOf(c, events + [torn])[..b];
            Emitted(c, r, file, body, at) == Emission(r, file, Err(Unreadable))
  {
    hide Good, LoadFile, AllClean, Cached;
    AllCleanAppend(c, events, torn);
    TornFileRecovers(c, events + [torn], b);
    CacheIsShort(c, events, r);
    FileAppend(c, events, torn);
    if b == |FileOf(c, events)| { WholeCharacters(c, events, torn); }
  }

  lemma WholeCharacters(c: Codec, events: seq<ManagedEvent>, torn: ManagedEvent)
    ensures var text, b := Journal(c, events + [torn]), |FileOf(c, events)|;
            |Utf8(text[..Chars(text, b)])| == b
  {
    var text, b := Journal(c, events + [torn]), |FileOf(c, events)|;
    FileAppend(c, events, torn);
    DecodePrefix(text, b);
    DecodeWhole(Journal(c, events));
    assert Utf8(text)[..b] == FileOf(c, events);
  }
}
