/** The recorder of a managed run (host/store.py): an append under a file lock, a cached state that
    is revalidated by file size alone, and every interleaving of any number of recorders. */
module HostStore {
  import opened JsonModel
  import opened HostReduce
  import opened HostJournal
  import opened TextEncoding
  import HostLifecycle

  datatype Recorder = Recorder(state: Option<ManagedState>, knownSize: nat)

  function Synchronized(c: Codec, r: Recorder, file: seq<Byte>): Result<Recorder> {
    if |file| == r.knownSize then Ok(r)
    else
      var events := LoadFile(c, file);
      if events.Err? then Err(events.reason)
      else if events.value == [] then Ok(Recorder(None, |file|))
      else
        var state := Replay(events.value);
        if state.Err? then Err(state.reason) else Ok(Recorder(Some(state.value), |file|))
  }

  function Line(c: Codec, e: ManagedEvent): seq<Byte> { Utf8(c.encode(e) + "\n") }

  /** What one `emit` leaves behind. */
  datatype Emission = Emission(recorder: Recorder, file: seq<Byte>, result: Result<ManagedEvent>)

  function Emitted(c: Codec, r: Recorder, file: seq<Byte>, body: Body, at: real): Emission {
    var synced := Synchronized(c, r, file);
    if synced.Err? then Emission(r, file, Err(synced.reason))
    else
      var state := synced.value.state;
      var e := ManagedEvent(if state.None? then 1 else state.value.eventSeq + 1, at, body);
      var next := Apply(state, e);
      if next.Err? then Emission(synced.value, file, Err(next.reason))
      else if !c.encodable(e) then Emission(synced.value, file, Err(Unwritable))
      else
        var longer := file + Line(c, e);
        Emission(Recorder(Some(next.value), |longer|), longer, Ok(e))
  }

  /** `open` without the constructor: the state that the events replay to, and the size they had. */
  function Opened(c: Codec, file: seq<Byte>): Result<Recorder> {
    var events := LoadFile(c, file);
    if events.Err? then Err(events.reason)
    else
      var state := Replay(events.value);
      if state.Err? then Err(state.reason) else Ok(Recorder(Some(state.value), |file|))
  }

  /** What `open` hands to the constructor, and the size that the constructor finds. */
  function Attached(reading: Recorder, file: seq<Byte>): Recorder { reading.(knownSize := |file|) }

  /** One run directory: `events.jsonl` and `status.json`. */
  class RunDirectory {
    var events: seq<Byte>
    var status: Option<ManagedState>

    constructor ()
      ensures events == [] && status == None
    {
      events, status := [], None;
    }
  }

  class ManagedRecorder {
    const codec: Codec
    const dir: RunDirectory
    var state: Option<ManagedState>
    var knownSize: nat

    function Value(): Recorder
      reads this
    {
      Recorder(state, knownSize)
    }

    constructor (codec: Codec, dir: RunDirectory, state: Option<ManagedState>)
      ensures this.codec == codec && this.dir == dir && Value() == Recorder(state, |dir.events|)
    {
      this.codec, this.dir, this.state, this.knownSize := codec, dir, state, |dir.events|;
    }

    /** The events are read without the lock, and the constructor takes the size afterwards: `others`
        is what other writers append in between. */
    static method Open(codec: Codec, dir: RunDirectory, others: seq<Byte>) returns (r: Result<ManagedRecorder>)
      modifies dir`events
      ensures r.Ok? ==> fresh(r.value) && r.value.codec == codec && r.value.dir == dir
                        && dir.events == old(dir.events) + others && Opened(codec, old(dir.events)).Ok?
                        && r.value.Value() == Attached(Opened(codec, old(dir.events)).value, dir.events)
      ensures r.Err? ==> dir.events == old(dir.events) && Opened(codec, dir.events) == Err(r.reason)
    {
      var events := LoadFile(codec, dir.events);
      if events.Err? { return Err(events.reason); }
      var state := Replay(events.value);
      if state.Err? { return Err(state.reason); }
      dir.events := dir.events + others;
      var recorder := new ManagedRecorder(codec, dir, Some(state.value));
      return Ok(recorder);
    }

    method SynchronizeFromDisk() returns (failure: Option<Reason>)
      modifies this
      ensures var s := Synchronized(codec, old(Value()), dir.events);
              if s.Ok? then failure == None && Value() == s.value
              else failure == Some(s.reason) && Value() == old(Value())
    {
      var size := |dir.events|;
      if size == knownSize { return None; }
      var events := LoadFile(codec, dir.events);
      if events.Err? { return Some(events.reason); }
      if events.value == [] {
        state := None;
      } else {
        var replayed := Replay(events.value);
        if replayed.Err? { return Some(replayed.reason); }
        state := Some(replayed.value);
      }
      knownSize := size;
      return None;
    }

    /** `statusFails`: replacing the status file raises. The event is in the journal by then, and the
        recorder has moved on. */
    method Emit(body: Body, at: real, statusFails: bool) returns (r: Result<ManagedEvent>)
      modifies this, dir
      ensures var m := Emitted(codec, old(Value()), old(dir.events), body, at);
              && Value() == m.recorder && dir.events == m.file
              && r == (if m.result.Ok? && statusFails then Err(StatusFailed) else m.result)
              && dir.status == if r.Ok? then state else old(dir.status)
    {
      var failure := SynchronizeFromDisk();
      if failure.Some? { return Err(failure.value); }
      var seqNo := if state.None? then 1 else state.value.eventSeq + 1;
      var event := ManagedEvent(seqNo, at, body);
      var next := Apply(state, event);
      if next.Err? { return Err(next.reason); }
      if !codec.encodable(event) { return Err(Unwritable); }
      dir.events := dir.events + Line(codec, event);
      knownSize := |dir.events|;
      state := Some(next.value);
      if statusFails { return Err(StatusFailed); }
      dir.status := state;
      return Ok(event);
    }

    method RefreshStatus(statusFails: bool) returns (failure: Option<Reason>)
      modifies this, dir`status
      ensures var s := Synchronized(codec, old(Value()), dir.events);
              if s.Err? then failure == Some(s.reason) && Value() == old(Value()) && dir.status == old(dir.status)
              else
                && Value() == s.value
                && failure == (if s.value.state.None? then Some(NotCreated)
                               else if statusFails then Some(StatusFailed) else None)
                && dir.status == if failure.Some? then old(dir.status) else s.value.state
    {
      failure := SynchronizeFromDisk();
      if failure.Some? { return; }
      if state.None? { return Some(NotCreated); }
      if statusFails { return Some(StatusFailed); }
      dir.status := state;
    }
  }

  // ---- any number of recorders on one journal ----

  /** `readings`: events that an `open` has replayed, before it takes the size. */
  datatype World = World(
    file: seq<Byte>, status: Option<ManagedState>, recorders: map<nat, Recorder>, readings: map<nat, Recorder>)

  /** `Read` and `Attach` are the two halves of an `open`. `RecordOnly` and `RefreshOnly` are calls whose
      write of the status file fails in a process that lives on; `EmitAndDie` is a process killed between
      its append and that write. */
  datatype Step =
    | Create(id: nat)
    | Read(id: nat)
    | Attach(id: nat)
    | Record(id: nat, body: Body, at: real)
    | RecordOnly(id: nat, body: Body, at: real)
    | EmitAndDie(id: nat, body: Body, at: real)
    | Refresh(id: nat)
    | RefreshOnly(id: nat)

  function Outcome(c: Codec, w: World, id: nat, body: Body, at: real): Emission
    requires id in w.recorders
  {
    Emitted(c, w.recorders[id], w.file, body, at)
  }

  function Take(c: Codec, w: World, s: Step): World {
    match s
    case Create(id) => w.(recorders := w.recorders[id := Recorder(None, |w.file|)])
    case Read(id) =>
      var r := Opened(c, w.file);
      if r.Err? then w else w.(readings := w.readings[id := r.value])
    case Attach(id) =>
      if id !in w.readings then w
      else w.(recorders := w.recorders[id := Attached(w.readings[id], w.file)], readings := w.readings - {id})
    case Record(id, body, at) =>
      if id !in w.recorders then w
      else
        var m := Outcome(c, w, id, body, at);
        World(m.file, if m.result.Ok? then m.recorder.state else w.status, w.recorders[id := m.recorder], w.readings)
    case RecordOnly(id, body, at) =>
      if id !in w.recorders then w
      else
        var m := Outcome(c, w, id, body, at);
        w.(file := m.file, recorders := w.recorders[id := m.recorder])
    case EmitAndDie(id, body, at) =>
      if id !in w.recorders then w
      else World(Outcome(c, w, id, body, at).file, w.status, w.recorders - {id}, w.readings)
    case Refresh(id) =>
      if id !in w.recorders then w
      else
        var s := Synchronized(c, w.recorders[id], w.file);
        if s.Err? then w
        else w.(status := if s.value.state.None? then w.status else s.value.state,
                recorders := w.recorders[id := s.value])
    case RefreshOnly(id) =>
      if id !in w.recorders then w
      else
        var s := Synchronized(c, w.recorders[id], w.file);
        if s.Err? then w else w.(recorders := w.recorders[id := s.value])
  }

  /** A recorder without a state is only made for an empty journal, nothing is appended between the
      two halves of an `open`, and no written record holds a character that cuts lines. */
  predicate Allowed(c: Codec, w: World, s: Step) {
    match s
    case Create(id) => w.file == []
    case Attach(id) => id in w.readings ==> w.readings[id].knownSize == |w.file|
    case Record(id, body, at) => WritesCleanly(c, w, id, body, at)
    case RecordOnly(id, body, at) => WritesCleanly(c, w, id, body, at)
    case EmitAndDie(id, body, at) => WritesCleanly(c, w, id, body, at)
    case _ => true
  }

  predicate WritesCleanly(c: Codec, w: World, id: nat, body: Body, at: real) {
    id in w.recorders ==>
      var r := Outcome(c, w, id, body, at).result;
      r.Ok? ==> Clean(c.encode(r.value))
  }

  const FRESH: World := World([], None, map[], map[])

  function Run(c: Codec, steps: seq<Step>): World {
    if steps == [] then FRESH else Take(c, Run(c, steps[..|steps| - 1]), steps[|steps| - 1])
  }

  ghost predicate AllAllowed(c: Codec, steps: seq<Step>) {
    steps == [] || (AllAllowed(c, steps[..|steps| - 1]) && Allowed(c, Run(c, steps[..|steps| - 1]), steps[|steps| - 1]))
  }

  // ---- size-only validation is sound ----

  ghost predicate Replays(events: seq<ManagedEvent>) { Fold(events).Ok? }

  /** The cache of a recorder that last saw the journal when it had `k` events. */
  ghost function Snapshot(c: Codec, events: seq<ManagedEvent>, k: nat): Recorder
    requires k <= |events| && Replays(events[..k])
  {
    Recorder(Fold(events[..k]).value, |FileOf(c, events[..k])|)
  }

  ghost predicate Cached(c: Codec, events: seq<ManagedEvent>, r: Recorder) {
    exists k: nat :: k <= |events| && Replays(events[..k]) && r == Snapshot(c, events, k)
  }

  ghost predicate Projected(events: seq<ManagedEvent>, status: Option<ManagedState>) {
    exists k: nat :: k <= |events| && Replays(events[..k]) && Fold(events[..k]).value == status
  }

  ghost predicate Sound(c: Codec, events: seq<ManagedEvent>, w: World) {
    && w.file == FileOf(c, events) && AllClean(c, events) && Replays(events)
    && (forall id | id in w.recorders :: Cached(c, events, w.recorders[id]))
    && (forall id | id in w.readings :: Cached(c, events, w.readings[id]) && w.readings[id].state.Some?)
    && Projected(events, w.status)
  }

  lemma FileAppend(c: Codec, events: seq<ManagedEvent>, e: ManagedEvent)
    ensures FileOf(c, events + [e]) == FileOf(c, events) + Line(c, e)
  {
    assert (events + [e])[..|events|] == events;
    var text := c.encode(e) + "\n";
    assert Journal(c, events + [e]) == Journal(c, events) + text;
    Utf8Append(Journal(c, events), text);
  }

  /** The file of a shorter journal is strictly smaller: equal size means nothing was appended. */
  lemma SizeIdentifies(c: Codec, events: seq<ManagedEvent>, k: nat)
    requires k <= |events| && |FileOf(c, events[..k])| == |FileOf(c, events)|
    ensures k == |events|
  {
    var short, long := Journal(c, events[..k]), Journal(c, events);
    JournalGrows(c, events, k);
    assert long == short + long[|short|..];
    Utf8Append(short, long[|short|..]);
    Utf8Grows(long[|short|..]);
  }

  lemma SyncIsCurrent(c: Codec, events: seq<ManagedEvent>, r: Recorder)
    requires Good(c) && AllClean(c, events) && Replays(events) && Cached(c, events, r)
    ensures Synchronized(c, r, FileOf(c, events)) == Ok(Recorder(Fold(events).value, |FileOf(c, events)|))
  {
    hide Good, LoadFile, FileOf, Fold;
    var k: nat :| k <= |events| && Replays(events[..k]) && r == Snapshot(c, events, k);
    if |FileOf(c, events)| == r.knownSize {
      SizeIdentifies(c, events, k);
      assert events[..k] == events;
    } else {
      FileReadsBack(c, events);
      ReplayedFold(events);
    }
  }

  lemma ReplayedFold(events: seq<ManagedEvent>)
    requires Replays(events)
    ensures if events == [] then Fold(events).value == None
            else Fold(events).value.Some? && Replay(events) == Ok(Fold(events).value.value)
                 && Fold(events).value.value.eventSeq == |events|
  {
    if events != [] {
      FoldPrefix(events, |events|);
      assert events[..|events|] == events;
      HostLifecycle.ReplayIsLawful(events);
    }
  }

  /** However stale its cache, a recorder accepts an event exactly when the reducer accepts it on
      the replay of the whole journal; then its state is the replay of the longer journal. */
  lemma EmitIsLinear(c: Codec, events: seq<ManagedEvent>, r: Recorder, body: Body, at: real)
    requires Good(c) && AllClean(c, events) && Replays(events) && Cached(c, events, r)
    ensures var m := Emitted(c, r, FileOf(c, events), body, at);
            var e := ManagedEvent(|events| + 1, at, body);
            var next := Fold(events + [e]);
            if next.Ok? && c.encodable(e) then
              m == Emission(Recorder(next.value, |FileOf(c, events + [e])|), FileOf(c, events + [e]), Ok(e))
            else
              m.result == Err(if next.Err? then next.reason else Unwritable) && m.file == FileOf(c, events)
              && m.recorder == Recorder(Fold(events).value, |FileOf(c, events)|)
  {
    hide Good, FileOf, Fold, Apply, Line, Synchronized, Cached, AllClean;
    SyncIsCurrent(c, events, r);
    ReplayedFold(events);
    var e := ManagedEvent(|events| + 1, at, body);
    FoldAppend(events, e);
    FileAppend(c, events, e);
  }

  lemma CachedNow(c: Codec, events: seq<ManagedEvent>)
    requires Replays(events)
    ensures Cached(c, events, Recorder(Fold(events).value, |FileOf(c, events)|))
            && Projected(events, Fold(events).value)
  {
    assert events[..|events|] == events;
    assert Recorder(Fold(events).value, |FileOf(c, events)|) == Snapshot(c, events, |events|);
  }

  lemma CachedLater(c: Codec, events: seq<ManagedEvent>, e: ManagedEvent, r: Recorder)
    requires Cached(c, events, r)
    ensures Cached(c, events + [e], r)
  {
    hide FileOf, Fold;
    var k: nat :| k <= |events| && Replays(events[..k]) && r == Snapshot(c, events, k);
    assert (events + [e])[..k] == events[..k];
    assert r == Snapshot(c, events + [e], k);
  }

  lemma ProjectedLater(events: seq<ManagedEvent>, e: ManagedEvent, status: Option<ManagedState>)
    requires Projected(events, status)
    ensures Projected(events + [e], status)
  {
    hide Fold;
    var k: nat :| k <= |events| && Replays(events[..k]) && Fold(events[..k]).value == status;
    assert (events + [e])[..k] == events[..k];
  }

  // ---- every interleaving ----

  /** The event a step appends, if any. */
  function Appended(c: Codec, w: World, s: Step): seq<ManagedEvent> {
    if (s.Record? || s.RecordOnly? || s.EmitAndDie?) && s.id in w.recorders then
      var r := Outcome(c, w, s.id, s.body, s.at).result;
      if r.Ok? then [r.value] else []
    else []
  }

  /** Everything that was appended, in order. */
  function Log(c: Codec, steps: seq<Step>): seq<ManagedEvent> {
    if steps == [] then []
    else Log(c, steps[..|steps| - 1]) + Appended(c, Run(c, steps[..|steps| - 1]), steps[|steps| - 1])
  }

  lemma AllCleanAppend(c: Codec, events: seq<ManagedEvent>, e: ManagedEvent)
    requires AllClean(c, events) && Fit(c, e)
    ensures AllClean(c, events + [e])
  {
  }

  /** What an accepted emission does to the world. */
  lemma RecordIsSound(c: Codec, events: seq<ManagedEvent>, w: World, id: nat, body: Body, at: real)
    requires Good(c) && Sound(c, events, w) && id in w.recorders && WritesCleanly(c, w, id, body, at)
    ensures var m := Outcome(c, w, id, body, at);
            var longer := if m.result.Ok? then events + [m.result.value] else events;
            && m.file == FileOf(c, longer) && AllClean(c, longer) && Replays(longer)
            && m.recorder == Recorder(Fold(longer).value, |FileOf(c, longer)|)
            && (m.result.Ok? ==> m.result.value == ManagedEvent(|events| + 1, at, body))
            && (forall k | k in w.recorders :: Cached(c, longer, w.recorders[k]))
            && (forall k | k in w.readings :: Cached(c, longer, w.readings[k]))
            && Cached(c, longer, m.recorder)
            && Projected(longer, w.status) && Projected(longer, m.recorder.state)
  {
    hide Good, FileOf, Fold, Emitted, Cached, Projected, AllClean;
    EmitIsLinear(c, events, w.recorders[id], body, at);
    var m := Outcome(c, w, id, body, at);
    if m.result.Ok? {
      var e := m.result.value;
      AllCleanAppend(c, events, e) by { EncodableWhenAccepted(c, w.recorders[id], w.file, body, at); }
      CachedNow(c, events + [e]);
      ProjectedLater(events, e, w.status);
      forall k | k in w.recorders ensures Cached(c, events + [e], w.recorders[k]) {
        CachedLater(c, events, e, w.recorders[k]);
      }
      forall k | k in w.readings ensures Cached(c, events + [e], w.readings[k]) {
        CachedLater(c, events, e, w.readings[k]);
      }
    } else {
      CachedNow(c, events);
    }
  }

  lemma EncodableWhenAccepted(c: Codec, r: Recorder, file: seq<Byte>, body: Body, at: real)
    ensures var m := Emitted(c, r, file, body, at).result; m.Ok? ==> c.encodable(m.value)
  {
    hide Synchronized, Apply;
  }

  lemma OpenedIsCurrent(c: Codec, events: seq<ManagedEvent>)
    requires Good(c) && AllClean(c, events) && Replays(events)
    ensures var r := Opened(c, FileOf(c, events));
            if events == [] then r.Err? else r == Ok(Recorder(Fold(events).value, |FileOf(c, events)|))
  {
    hide Good, LoadFile, FileOf, Fold;
    FileReadsBack(c, events);
    ReplayedFold(events);
    ReplayNothing();
  }

  lemma ReplayNothing()
    ensures Replay([]).Err? && Fold([]) == Ok(None)
  {
  }

  lemma CreateIsSound(c: Codec, events: seq<ManagedEvent>, w: World)
    requires Sound(c, events, w) && w.file == []
    ensures Cached(c, events, Recorder(None, |w.file|))
  {
    hide FileOf;
    JournalEndsLine(c, events);
    Utf8Grows(Journal(c, events));
    EmptyFile(c, events);
    ReplayNothing();
    CachedNow(c, events);
  }

  lemma EmptyFile(c: Codec, events: seq<ManagedEvent>)
    requires FileOf(c, events) == []
    ensures events == []
  {
    Utf8Grows(Journal(c, events));
    JournalEndsLine(c, events);
  }

  lemma TakeIsSound(c: Codec, events: seq<ManagedEvent>, w: World, s: Step)
    requires Good(c) && Sound(c, events, w) && Allowed(c, w, s)
    ensures Sound(c, events + Appended(c, w, s), Take(c, w, s))
  {
    hide Good, FileOf, Fold, Emitted, Cached, Projected, AllClean, Opened, Synchronized, WritesCleanly;
    assert events + [] == events;
    match s
    case Create(id) => CreateIsSound(c, events, w);
    case Read(id) =>
      OpenedIsCurrent(c, events);
      CachedNow(c, events);
      ReplayedFold(events);
    case Attach(id) =>
    case Record(id, body, at) => if id in w.recorders { RecordIsSound(c, events, w, id, body, at); }
    case RecordOnly(id, body, at) => if id in w.recorders { RecordIsSound(c, events, w, id, body, at); }
    case EmitAndDie(id, body, at) => if id in w.recorders { RecordIsSound(c, events, w, id, body, at); }
    case Refresh(id) =>
      if id in w.recorders {
        SyncIsCurrent(c, events, w.recorders[id]);
        CachedNow(c, events);
      }
    case RefreshOnly(id) =>
      if id in w.recorders {
        SyncIsCurrent(c, events, w.recorders[id]);
        CachedNow(c, events);
      }
  }

  /** Under every interleaving of any number of recorders: the file is the journal of what was
      appended and always replays, every cache is the replay of a prefix of known size, and the
      status file shows the replay of a prefix. */
  lemma {:induction false} EveryInterleavingIsSound(c: Codec, steps: seq<Step>)
    requires Good(c) && AllAllowed(c, steps)
    ensures Sound(c, Log(c, steps), Run(c, steps))
    ensures LoadFile(c, Run(c, steps).file) == Ok(Log(c, steps)) && Fold(Log(c, steps)).Ok?
    ensures forall i | 0 <= i < |Log(c, steps)| :: Log(c, steps)[i].seqNo == i + 1
  {
    hide Good, FileOf, Fold, LoadFile, Take, Appended, Allowed, Cached, Projected;
    if steps == [] {
      EmptyIsSound(c);
    } else {
      var before := steps[..|steps| - 1];
      EveryInterleavingIsSound(c, before);
      TakeIsSound(c, Log(c, before), Run(c, before), steps[|steps| - 1]);
    }
    var log := Log(c, steps);
    FileReadsBack(c, log);
    forall i | 0 <= i < |log| ensures log[i].seqNo == i + 1 {
      FoldPrefix(log, i + 1);
    }
  }

  lemma EmptyIsSound(c: Codec)
    ensures Sound(c, [], FRESH)
  {
    ReplayNothing();
    CachedNow(c, []);
  }

  /** A recorder that has just emitted holds the replay of the whole journal and has written it to
      the status file; a rejected event leaves the journal as it was. */
  lemma EmitIsCurrent(c: Codec, steps: seq<Step>, id: nat, body: Body, at: real)
    requires Good(c) && AllAllowed(c, steps + [Record(id, body, at)]) && id in Run(c, steps).recorders
    ensures var w := Run(c, steps);
            var n := Run(c, steps + [Record(id, body, at)]);
            var log := Log(c, steps + [Record(id, body, at)]);
            && Fold(log).Ok? && id in n.recorders && n.recorders[id] == Recorder(Fold(log).value, |n.file|)
            && if Outcome(c, w, id, body, at).result.Ok? then
                 log == Log(c, steps) + [ManagedEvent(|Log(c, steps)| + 1, at, body)] && n.status == Fold(log).value
               else n.file == w.file && log == Log(c, steps) && n.status == w.status
  {
    hide Good, FileOf, Fold, Emitted, Cached, Projected, AllClean, Opened, Synchronized, WritesCleanly, LoadFile;
    var s := Record(id, body, at);
    OneMore(c, steps, s);
    hide AllAllowed, Run, Log;
    EveryInterleavingIsSound(c, steps);
    RecordIsSound(c, Log(c, steps), Run(c, steps), id, body, at);
    assert Log(c, steps) + [] == Log(c, steps);
  }

  lemma OneMore(c: Codec, steps: seq<Step>, s: Step)
    ensures Run(c, steps + [s]) == Take(c, Run(c, steps), s)
    ensures Log(c, steps + [s]) == Log(c, steps) + Appended(c, Run(c, steps), s)
    ensures AllAllowed(c, steps + [s]) <==> AllAllowed(c, steps) && Allowed(c, Run(c, steps), s)
  {
    hide Take, Allowed, Appended;
    var all := steps + [s];
    assert all[..|all| - 1] == steps && all[|all| - 1] == s;
  }

  /** A recorder that attaches is sound exactly when the journal still has the size that it had when its
      events were read: otherwise an old state goes with the new size. */
  lemma AttachIsSound(c: Codec, events: seq<ManagedEvent>, w: World, id: nat)
    requires Sound(c, events, w) && id in w.readings
    ensures Sound(c, events, Take(c, w, Attach(id))) <==> w.readings[id].knownSize == |w.file|
  {
    hide FileOf, Fold, Projected, AllClean, Cached;
    var n := Take(c, w, Attach(id));
    var read, late := w.readings[id], n.recorders[id];
    if Cached(c, events, late) { CachedTwice(c, events, read, late); }
    if read.knownSize == |w.file| { assert late == read; }
  }

  /** Two caches with one state were taken at one size. */
  lemma CachedTwice(c: Codec, events: seq<ManagedEvent>, a: Recorder, b: Recorder)
    requires Cached(c, events, a) && Cached(c, events, b) && a.state == b.state
    ensures a == b
  {
    hide FileOf, Fold;
    var k: nat :| k <= |events| && Replays(events[..k]) && a == Snapshot(c, events, k);
    var l: nat :| l <= |events| && Replays(events[..l]) && b == Snapshot(c, events, l);
    ReplayedFold(events[..k]);
    ReplayedFold(events[..l]);
  }

  /** What comes of it: the reading is `events`, the journal has grown by `more`, and the size hides it.
      The next event that is accepted gets a number that is taken. The journal replays after it exactly
      when nothing was missed; otherwise nobody can open it again. */
  lemma LateAttachBreaksTheJournal(c: Codec, events: seq<ManagedEvent>, more: seq<ManagedEvent>, body: Body, at: real)
    requires Good(c) && events != [] && Replays(events) && Replays(events + more) && AllClean(c, events + more)
    ensures var file := FileOf(c, events + more);
            var late := Attached(Recorder(Fold(events).value, |FileOf(c, events)|), file);
            var m, e := Emitted(c, late, file, body, at), ManagedEvent(|events| + 1, at, body);
            && (m.result.Ok? <==> Apply(Fold(events).value, e).Ok? && c.encodable(e))
            && (m.result.Ok? && Clean(c.encode(e)) ==>
                  && m.result.value == e && LoadFile(c, m.file) == Ok(events + more + [e])
                  && (Opened(c, m.file).Ok? <==> more == []))
  {
    hide Good, LoadFile, FileOf, Fold, Apply, Line, AllClean;
    var longer := events + more;
    var file := FileOf(c, longer);
    var late := Attached(Recorder(Fold(events).value, |FileOf(c, events)|), file);
    var m := Emitted(c, late, file, body, at);
    ReplayedFold(events);
    if m.result.Ok? && Clean(c.encode(m.result.value)) {
      var e := m.result.value;
      FileAppend(c, longer, e);
      EncodableWhenAccepted(c, late, file, body, at);
      AllCleanAppend(c, longer, e);
      CleanIsEncodable(c, longer + [e]);
      FileReadsBack(c, longer + [e]);
      FoldAppend(longer, e);
      if more == [] { assert longer == events; }
      ReplayIsFold(longer + [e]);
    }
  }

  lemma CleanIsEncodable(c: Codec, events: seq<ManagedEvent>)
    requires AllClean(c, events)
    ensures Encodable(c, events)
  {
  }

  lemma ReplayIsFold(events: seq<ManagedEvent>)
    requires events != []
    ensures Replay(events).Ok? <==> Fold(events).Ok?
  {
    if Fold(events).Ok? { ReplayedFold(events); }
  }

  /** An accepted record that holds a line-breaking character makes the journal unreadable, for
      every recorder that has to read it, and it is the only way to do so. */
  lemma DirtyRecordBreaksTheJournal(c: Codec, events: seq<ManagedEvent>, r: Recorder, body: Body, at: real)
    requires Good(c) && AllClean(c, events) && Replays(events) && Cached(c, events, r)
    ensures var m := Emitted(c, r, FileOf(c, events), body, at);
            m.result.Ok? ==>
              && (LoadFile(c, m.file).Ok? <==> Clean(c.encode(m.result.value)))
              && (!Clean(c.encode(m.result.value)) ==> Synchronized(c, r, m.file).Err?)
  {
    hide Good, LoadFile, FileOf, Fold, Emitted;
    EmitIsLinear(c, events, r, body, at);
    EncodableWhenAccepted(c, r, FileOf(c, events), body, at);
    var m := Emitted(c, r, FileOf(c, events), body, at);
    if m.result.Ok? {
      var e := m.result.value;
      var longer := events + [e];
      assert forall i | 0 <= i < |events| :: longer[i] == events[i];
      assert longer[|events|] == e;
      assert Encodable(c, longer);
      FileReadsBack(c, longer);
      assert AllClean(c, longer) <==> Clean(c.encode(e));
      var k: nat :| k <= |events| && Replays(events[..k]) && r == Snapshot(c, events, k);
      assert longer[..k] == events[..k];
      if r.knownSize == |m.file| {
        SizeIdentifies(c, longer, k);
      }
    }
  }
}
