/** A managed run's state said without the reducer: what the journal as a whole makes of each field, by
    where its events stand (host/reduce.py). Jobs and the lease are the subject of HostLifecycle. */
module HostSummary {
  import opened JsonModel
  import opened HostReduce
  import opened HostLifecycle
  import opened Logs

  const STARTS: ManagedEvent -> bool := (e: ManagedEvent) => e.body.WorkerStarted?
  const STOPS: ManagedEvent -> bool := (e: ManagedEvent) => e.body.StopRequested?
  const SNAPSHOTS: ManagedEvent -> bool := (e: ManagedEvent) => e.body.ControllerSnapshot?
  const FAILS: ManagedEvent -> bool := (e: ManagedEvent) => e.body.ErrorRaised?
  const IS_HEARD: ManagedEvent -> bool := (e: ManagedEvent) =>
    e.body.RunCreated? || e.body.WorkerStarted? || e.body.Heartbeat?

  /** The last patch that names a key decides it. */
  ghost function TaskValue(events: seq<ManagedEvent>, key: string): Option<Json> {
    if events == [] then None
    else
      match events[|events| - 1].body
      case RunCreated(spec) => if key in spec.task then Some(spec.task[key]) else None
      case TaskUpdated(patch) => if key in patch then Some(patch[key]) else TaskValue(events[..|events| - 1], key)
      case _ => TaskValue(events[..|events| - 1], key)
  }

  function StopText(reason: Option<string>): string {
    if reason.Some? && reason.value != "" then reason.value else "stop_requested"
  }

  function ErrorText(error: string): string { if error == "" then "unknown error" else error }

  /** A finished run stands as its last RUN_FINISHED says, whatever is requested afterwards. Before
      that, one stop request makes it stopping for good; otherwise it is running once its worker started. */
  ghost predicate Stands(st: ManagedState, events: seq<ManagedEvent>) {
    && (forall i: nat | IsLast(events, i, FINISHES) ::
          && st.status == events[i].body.finalStatus && st.status.Terminal()
          && st.stopReason == events[i].body.finalReason && st.output == events[i].body.output)
    && (HasNone(events, FINISHES) ==> st.output == Null && !st.status.Terminal())
    && (HasNone(events, FINISHES) ==>
          forall i: nat | IsLast(events, i, STOPS) ::
            st.status == Stopping && st.stopReason == Some(StopText(events[i].body.stopReason)))
    && (HasNone(events, FINISHES) && HasNone(events, STOPS) ==>
          st.stopReason == None && st.status == if HasNone(events, STARTS) then Starting else Running)
  }

  /** Snapshot, error and pid are the last ones, and the heartbeat is when something was heard last. */
  ghost predicate Traces(st: ManagedState, events: seq<ManagedEvent>) {
    && (forall i: nat | IsLast(events, i, SNAPSHOTS) :: st.controller == events[i].body.snapshot)
    && (HasNone(events, SNAPSHOTS) ==> st.controller == map[])
    && (forall i: nat | IsLast(events, i, FAILS) :: st.lastError == Some(ErrorText(events[i].body.error)))
    && (HasNone(events, FAILS) ==> st.lastError == None)
    && (forall i: nat | IsLast(events, i, STARTS) :: st.pid == Some(events[i].body.pid))
    && (HasNone(events, STARTS) ==> st.pid == None)
    && (forall i: nat | IsLast(events, i, IS_HEARD) :: st.heartbeatAt == Some(events[i].at))
  }

  ghost predicate Summarized(st: ManagedState, events: seq<ManagedEvent>)
    requires events != []
  {
    && st.createdAt == events[0].at && st.updatedAt == events[|events| - 1].at
    && events[0].body == RunCreated(st.spec)
    && Traces(st, events) && Stands(st, events)
  }

  // ---- one more event ---------------------------------------------------------------------

  lemma TimesStep(st: ManagedState, e: ManagedEvent)
    requires Apply(Some(st), e).Ok?
    ensures var n := Apply(Some(st), e).value; n.createdAt == st.createdAt && n.updatedAt == e.at && n.spec == st.spec
  {
    hide NextJobs;
  }

  /** One event, seen from snapshot, error and pid alone. */
  lemma TracesAfter(st: ManagedState, e: ManagedEvent)
    requires Apply(Some(st), e).Ok?
    ensures var n := Apply(Some(st), e).value;
            && n.controller == (if e.body.ControllerSnapshot? then e.body.snapshot else st.controller)
            && n.pid == (if e.body.WorkerStarted? then Some(e.body.pid) else st.pid)
            && n.lastError == (if e.body.ErrorRaised? then Some(ErrorText(e.body.error)) else st.lastError)
  {
    hide NextJobs, Deadline;
  }

  lemma TracesStep(st: ManagedState, events: seq<ManagedEvent>, e: ManagedEvent)
    requires Apply(Some(st), e).Ok? && Traces(st, events)
    ensures Traces(Apply(Some(st), e).value, events + [e])
  {
    hide Apply, IsLast, HasNone, ErrorText;
    TracesAfter(st, e);
    HeardAfter(st, e);
    LastAppend(events, e, SNAPSHOTS);
    LastAppend(events, e, FAILS);
    LastAppend(events, e, STARTS);
    LastAppend(events, e, IS_HEARD);
    var longer := events + [e];
    assert forall i | 0 <= i < |events| :: longer[i] == events[i];
  }

  lemma HeardAfter(st: ManagedState, e: ManagedEvent)
    requires Apply(Some(st), e).Ok?
    ensures Apply(Some(st), e).value.heartbeatAt == if IS_HEARD(e) then Some(e.at) else st.heartbeatAt
  {
    hide NextJobs, Deadline, OrElse;
  }

  lemma StandsStep(st: ManagedState, events: seq<ManagedEvent>, e: ManagedEvent)
    requires Apply(Some(st), e).Ok? && Stands(st, events)
    ensures Stands(Apply(Some(st), e).value, events + [e])
  {
    hide Apply, IsLast, HasNone;
    StandsAfter(st, e);
    WorkerStartsOnce(st, e);
    LastAppend(events, e, FINISHES);
    LastAppend(events, e, STOPS);
    LastAppend(events, e, STARTS);
    SomeIsLast(events, FINISHES);
    SomeIsLast(events, STOPS);
    var longer := events + [e];
    assert forall i | 0 <= i < |events| :: longer[i] == events[i];
  }

  lemma SummaryStep(st: ManagedState, events: seq<ManagedEvent>, e: ManagedEvent)
    requires events != [] && Summarized(st, events) && Apply(Some(st), e).Ok?
    ensures Summarized(Apply(Some(st), e).value, events + [e])
  {
    hide Apply, Traces, Stands;
    TimesStep(st, e);
    TracesStep(st, events, e);
    StandsStep(st, events, e);
    assert (events + [e])[0] == events[0];
  }

  lemma FirstSummary(e: ManagedEvent)
    requires Apply(None, e).Ok?
    ensures Summarized(Apply(None, e).value, [e])
  {
    assert [e][0] == e;
    assert forall i | 0 <= i < |[e]| :: [e][i].body.RunCreated?;
  }

  /** Every journal that replays gives the state that the journal as a whole describes. */
  lemma {:induction false} StateSummarizesTheJournal(events: seq<ManagedEvent>)
    requires Replay(events).Ok?
    ensures Summarized(Replay(events).value, events)
  {
    hide Apply, Summarized;
    var before, e := events[..|events| - 1], events[|events| - 1];
    assert events == before + [e];
    if before == [] {
      FoldAppend([], e);
      assert events == [] + [e] == [e];
      FirstSummary(e);
    } else {
      FoldPrefix(events, |before|);
      StateSummarizesTheJournal(before);
      SummaryStep(Replay(before).value, before, e);
    }
  }

  lemma TaskStep(st: ManagedState, e: ManagedEvent, key: string)
    requires Apply(Some(st), e).Ok?
    ensures var n := Apply(Some(st), e).value;
            n.task == if e.body.TaskUpdated? then st.task + e.body.patch else st.task
    ensures !e.body.RunCreated?
  {
    hide NextJobs;
  }

  lemma {:induction false} TaskIsWhatThePatchesSay(events: seq<ManagedEvent>, key: string)
    requires Replay(events).Ok?
    ensures var task := Replay(events).value.task;
            (if key in task then Some(task[key]) else None) == TaskValue(events, key)
  {
    hide Apply;
    var before, e := events[..|events| - 1], events[|events| - 1];
    assert events == before + [e];
    if before == [] {
      FoldAppend([], e);
      assert events == [] + [e] == [e];
      FirstTask(e);
    } else {
      FoldPrefix(events, |before|);
      TaskIsWhatThePatchesSay(before, key);
      TaskStep(Replay(before).value, e, key);
    }
  }

  lemma FirstTask(e: ManagedEvent)
    requires Apply(None, e).Ok?
    ensures e.body.RunCreated? && Apply(None, e).value.task == e.body.spec.task
  {
  }
}
