/** A small codec whose records hold the goal that the caller gave: the laws assumed of JSON can be met,
    and a goal decides whether the journal can be read back (host/service.py:208-224, 666). */
module HostExample {
  import opened JsonModel
  import opened HostReduce
  import opened HostJournal
  import opened HostStore
  import opened TextEncoding

  // ---- three events of a run ----

  function Task(goal: string): Fields { map["goal" := Str(goal)] }

  function Spec(goal: string): RunSpec {
    RunSpec("run_1", "owner", "/", "diagnostic", Task(goal), [], true, None, 300.0, 3.0)
  }

  function Created(goal: string): ManagedEvent { ManagedEvent(1, 0.0, RunCreated(Spec(goal))) }

  const STARTED: ManagedEvent := ManagedEvent(2, 0.0, WorkerStarted(1))

  function Updated(goal: string): ManagedEvent { ManagedEvent(3, 0.0, TaskUpdated(Task(goal))) }

  // ---- their records ----

  /** Text that stands in a record as it is, and does not end one. */
  predicate Plain(text: string) { forall i | 0 <= i < |text| :: text[i] >= ' ' && text[i] != '{' && text[i] != '}' }

  function Goal(task: Fields): string { if "goal" in task && task["goal"].Str? then task["goal"].s else "" }

  /** What stands between the braces, for the events that have a record. */
  function Inside(e: ManagedEvent): Option<string> {
    match e.body
    case RunCreated(spec) => if e == Created(Goal(spec.task)) then Some("c" + Goal(spec.task)) else None
    case WorkerStarted(_) => if e == STARTED then Some("w") else None
    case TaskUpdated(patch) => if e == Updated(Goal(patch)) then Some("u" + Goal(patch)) else None
    case _ => None
  }

  function Parsed(inside: string): Option<ManagedEvent> {
    if inside == "" then None
    else if inside[0] == 'c' then Some(Created(inside[1..]))
    else if inside[0] == 'u' then Some(Updated(inside[1..]))
    else if inside == "w" then Some(STARTED)
    else None
  }

  function Braced(text: string): string { "{" + text + "}" }

  predicate Encodes(e: ManagedEvent) { Inside(e).Some? && Plain(Inside(e).value) }

  function Encoded(e: ManagedEvent): string { Braced(if Inside(e).Some? then Inside(e).value else "") }

  function Decoded(text: string): Option<ManagedEvent> {
    var s := if EndsLine(text) then text[..|text| - 1] else text;
    if |s| < 2 || s[0] != '{' || s[|s| - 1] != '}' || !Plain(s[1..|s| - 1]) then None else Parsed(s[1..|s| - 1])
  }

  function Example(): Codec { Codec(Encodes, Encoded, Decoded) }

  // ---- the laws ----

  lemma ParsedAgain(e: ManagedEvent)
    requires Inside(e).Some?
    ensures Parsed(Inside(e).value) == Some(e)
  {
  }

  lemma ReadsBack(e: ManagedEvent)
    requires Encodes(e)
    ensures Object(Encoded(e)) && Decoded(Encoded(e)) == Some(e) && Decoded(Encoded(e) + "\n") == Some(e)
  {
    hide Inside, Parsed;
    var inside, record := Inside(e).value, Encoded(e);
    assert record[1..|record| - 1] == inside;
    assert (record + "\n")[..|record|] == record;
    ParsedAgain(e);
  }

  lemma PrefixIsNothing(e: ManagedEvent, k: nat)
    requires Encodes(e) && k < |Encoded(e)|
    ensures Decoded(Encoded(e)[..k]) == None
  {
    hide Inside, Parsed;
    var inside, text := Inside(e).value, Encoded(e)[..k];
    if k > 1 { assert text[k - 1] == inside[k - 2]; }
  }

  lemma PieceIsNothing(d: ManagedEvent, e: ManagedEvent, k: nat)
    requires 0 < k <= |Encoded(d)|
    ensures Decoded(Encoded(d)[..k] + Encoded(e) + "\n") == None
  {
    hide Inside, Parsed;
    var s := Encoded(d)[..k] + Encoded(e);
    assert (s + "\n")[..|s|] == s;
    assert s[k] == '{' && s[1..|s| - 1][k - 1] == s[k];
  }

  lemma ExampleIsGood()
    ensures Good(Example())
  {
    hide Encodes, Encoded, Decoded, Object;
    var c := Example();
    forall e | c.encodable(e)
      ensures Object(c.encode(e))
      ensures c.decode(c.encode(e)) == Some(e) && c.decode(c.encode(e) + "\n") == Some(e)
    {
      ReadsBack(e);
    }
    forall e, k: nat | c.encodable(e) && k < |c.encode(e)| ensures c.decode(c.encode(e)[..k]) == None {
      PrefixIsNothing(e, k);
    }
    forall d, e, k: nat | c.encodable(d) && c.encodable(e) && 0 < k <= |c.encode(d)|
      ensures c.decode(c.encode(d)[..k] + c.encode(e) + "\n") == None
    {
      PieceIsNothing(d, e, k);
    }
  }

  // ---- a goal decides ----

  lemma BracesAreClean(text: string)
    ensures Clean(Braced(text)) <==> Clean(text)
  {
    var record := Braced(text);
    if Clean(record) {
      forall i | 0 <= i < |text| ensures !Breaks(text[i]) { assert record[i + 1] == text[i]; }
    }
  }

  lemma MarkIsClean(mark: char, goal: string)
    requires !Breaks(mark)
    ensures Clean([mark] + goal) <==> Clean(goal)
  {
    var inside := [mark] + goal;
    if Clean(inside) {
      forall i | 0 <= i < |goal| ensures !Breaks(goal[i]) { assert inside[i + 1] == goal[i]; }
    }
  }

  lemma RecordsOf(goal: string)
    requires Plain(goal)
    ensures Encodes(Created(goal)) && Encodes(Updated(goal)) && Fit(Example(), STARTED)
    ensures Clean(Encoded(Created(goal))) <==> Clean(goal)
    ensures Clean(Encoded(Updated(goal))) <==> Clean(goal)
  {
    assert Inside(Created(goal)) == Some("c" + goal) && Inside(Updated(goal)) == Some("u" + goal);
    BracesAreClean("c" + goal);
    BracesAreClean("u" + goal);
    BracesAreClean("w");
    MarkIsClean('c', goal);
    MarkIsClean('u', goal);
  }

  lemma EventsReplay(first: string, second: string)
    ensures var events := [Created(first), STARTED];
            && Fold([]) == Ok(None) && Fold([Created(first)]).Ok? && Fold(events).Ok?
            && Fold(events + [Updated(second)]).Ok?
  {
    assert [Created(first)] == [] + [Created(first)];
    assert [Created(first), STARTED] == [Created(first)] + [STARTED];
    FoldAppend([], Created(first));
    FoldAppend([Created(first)], STARTED);
    FoldAppend([Created(first), STARTED], Updated(second));
  }

  /** A run is started with this goal. RUN_CREATED is accepted and written, and the journal can be
      opened, by the worker to begin with, exactly when no character of the goal cuts lines. */
  lemma StartNeedsACleanGoal(goal: string)
    requires Plain(goal)
    ensures var c := Example();
            var m := Emitted(c, Recorder(None, 0), [], RunCreated(Spec(goal)), 0.0);
            Good(c) && m.result == Ok(Created(goal)) && (Opened(c, m.file).Ok? <==> Clean(goal))
  {
    hide Good, Fold, FileOf, LoadFile, Opened, Emitted, Clean, Encoded, Encodes;
    var c := Example();
    ExampleIsGood();
    RecordsOf(goal);
    EventsReplay(goal, goal);
    EmptyIsSound(c);
    EmptyCache(c);
    assert [] + [Created(goal)] == [Created(goal)];
    EmitIsLinear(c, [], Recorder(None, 0), RunCreated(Spec(goal)), 0.0);
    FileReadsBack(c, [Created(goal)]);
    OpenedIfLoaded(c, FileOf(c, [Created(goal)]));
    assert [Created(goal)][0] == Created(goal);
    assert AllClean(c, [Created(goal)]) <==> Clean(goal);
    if Clean(goal) { OpenedIsCurrent(c, [Created(goal)]); }
  }

  lemma EmptyCache(c: Codec)
    ensures FileOf(c, []) == [] && Cached(c, [], Recorder(None, 0))
  {
    ReplayNothing();
    CachedNow(c, []);
  }

  lemma OpenedIfLoaded(c: Codec, file: seq<Byte>)
    ensures Opened(c, file).Ok? ==> LoadFile(c, file).Ok?
  {
  }

  /** A run that was started and whose worker is up is given a new goal. TASK_UPDATED is accepted and
      written, and the journal still loads exactly when no character of the new goal cuts lines. */
  lemma UpdateNeedsACleanGoal(first: string, second: string)
    requires Plain(first) && Clean(first) && Plain(second)
    ensures var c, events := Example(), [Created(first), STARTED];
            var r := Opened(c, FileOf(c, events));
            && Good(c) && r.Ok?
            && var m := Emitted(c, r.value, FileOf(c, events), TaskUpdated(Task(second)), 0.0);
               m.result == Ok(Updated(second)) && (LoadFile(c, m.file).Ok? <==> Clean(second))
  {
    hide Good, Fold, FileOf, LoadFile, Opened, Emitted, Clean, Encoded, Encodes;
    var c, events := Example(), [Created(first), STARTED];
    ExampleIsGood();
    RecordsOf(first);
    RecordsOf(second);
    EventsReplay(first, second);
    assert AllClean(c, events);
    OpenedIsCurrent(c, events);
    CachedNow(c, events);
    var r := Opened(c, FileOf(c, events)).value;
    EmitIsLinear(c, events, r, TaskUpdated(Task(second)), 0.0);
    DirtyRecordBreaksTheJournal(c, events, r, TaskUpdated(Task(second)), 0.0);
  }

  const DIRTY: string := "one\U{2028}two"

  /** Such a goal is an ordinary text: not blank, without control characters. */
  lemma AGoalCanBreakTheJournal()
    ensures Plain(DIRTY) && !Blank(DIRTY)
    ensures var c := Example();
            var m := Emitted(c, Recorder(None, 0), [], RunCreated(Spec(DIRTY)), 0.0);
            m.result == Ok(Created(DIRTY)) && Opened(c, m.file).Err?
  {
    hide Emitted, Opened;
    assert Breaks(DIRTY[3]) && !White(DIRTY[0]);
    StartNeedsACleanGoal(DIRTY);
  }
}
