/** Managed runs: value types (host/types.py, host/events.py) and the partial reducer
    (host/reduce.py). A rejected event is an `Err`, the source's ValueError. */
module HostReduce {
  import opened JsonModel

  datatype Reason =
    | AlreadyCreated | NotCreated | CannotStart | DuplicateJob | NotPending | WrongVersion | NotTerminal
    | AlreadyTerminal | SequenceMoved | EmptyJournal | Unreadable | Unwritable | StatusFailed

  datatype Result<+T> = Ok(value: T) | Err(reason: Reason)

  datatype ManagedStatus = Starting | Running | Stopping | Succeeded | Failed | Cancelled | Expired {
    predicate Terminal() { Succeeded? || Failed? || Cancelled? || Expired? }

    function Rank(): nat { match this case Starting => 0 case Running => 1 case Stopping => 2 case _ => 3 }
  }

  datatype CognitionStatus = Pending | Completed | Withdrawn | Overdue

  datatype CognitionJob = CognitionJob(
    jobId: string,
    version: int,
    question: string,
    context: Fields,
    outputSchema: Fields,
    resourceKeys: seq<string>,
    requestedAt: real,
    deadlineAt: Option<real>,
    status: CognitionStatus,
    result: Json,
    evidence: Fields,
    error: Option<string>)

  datatype RunSpec = RunSpec(
    runId: string,
    ownerId: string,
    projectRoot: string,
    bundle: string,
    task: Fields,
    resourceKeys: seq<string>,
    detached: bool,
    leaseSeconds: Option<real>,
    maxRuntimeSeconds: real,
    stopGraceSeconds: real)

  datatype ManagedState = ManagedState(
    spec: RunSpec,
    task: Fields,
    createdAt: real,
    updatedAt: real,
    status: ManagedStatus,
    stopReason: Option<string>,
    resourcesReleased: bool,
    configVersion: nat,
    eventSeq: nat,
    pid: Option<int>,
    heartbeatAt: Option<real>,
    leaseDeadline: Option<real>,
    controller: Fields,
    cognition: seq<CognitionJob>,
    output: Json,
    lastError: Option<string>)
  {
    function Job(id: string): Option<CognitionJob> { FindJob(cognition, id) }
  }

  function FindJob(jobs: seq<CognitionJob>, id: string): (r: Option<CognitionJob>)
    ensures r.Some? ==> r.value in jobs && r.value.jobId == id
    ensures r.None? ==> forall j | j in jobs :: j.jobId != id
  {
    if jobs == [] then None else if jobs[0].jobId == id then Some(jobs[0]) else FindJob(jobs[1..], id)
  }

  datatype Body =
    | RunCreated(spec: RunSpec)
    | WorkerStarted(pid: int)
    | Heartbeat
    | ControllerSnapshot(snapshot: Fields)
    | TaskUpdated(patch: Fields)
    | CognitionRequested(jobId: string, question: string, context: Fields, outputSchema: Fields,
                         resourceKeys: seq<string>, deadlineAt: Option<real>)
    | CognitionCompleted(completedJob: string, version: int, result: Json, evidence: Fields)
    | CognitionCancelled(cancelledJob: string, cancelError: string)
    | CognitionExpired(expiredJob: string, expireError: string)
    | StopRequested(stopReason: Option<string>)
    | ResourcesReleased
    | RunFinished(finalStatus: ManagedStatus, finalReason: Option<string>, output: Json)
    | ErrorRaised(error: string)

  datatype ManagedEvent = ManagedEvent(seqNo: nat, at: real, body: Body)

  /** What `_replace_job` overwrites. */
  datatype Change = Change(version: int, status: CognitionStatus, outcome: Option<(Json, Fields)>,
                           error: Option<string>)

  function Changed(job: CognitionJob, c: Change): CognitionJob {
    var settled := job.(version := c.version, status := c.status, error := c.error);
    if c.outcome.None? then settled else settled.(result := c.outcome.value.0, evidence := c.outcome.value.1)
  }

  function ReplaceJob(jobs: seq<CognitionJob>, id: string, c: Change): (r: seq<CognitionJob>)
    ensures |r| == |jobs|
    ensures forall i | 0 <= i < |jobs| :: r[i] == if jobs[i].jobId == id then Changed(jobs[i], c) else jobs[i]
  {
    if jobs == [] then []
    else [if jobs[0].jobId == id then Changed(jobs[0], c) else jobs[0]] + ReplaceJob(jobs[1..], id, c)
  }

  /** `_replace_job` as the source writes it: one pass that also remembers whether the id was seen. */
  method ReplaceJobLoop(jobs: seq<CognitionJob>, id: string, c: Change) returns (r: Option<seq<CognitionJob>>)
    ensures r == if FindJob(jobs, id).Some? then Some(ReplaceJob(jobs, id, c)) else None
  {
    var out: seq<CognitionJob> := [];
    var found := false;
    for i := 0 to |jobs|
      invariant |out| == i
      invariant forall k | 0 <= k < i :: out[k] == if jobs[k].jobId == id then Changed(jobs[k], c) else jobs[k]
      invariant found <==> exists k :: 0 <= k < i && jobs[k].jobId == id
    {
      if jobs[i].jobId == id {
        out := out + [Changed(jobs[i], c)];
        found := true;
      } else {
        out := out + [jobs[i]];
      }
    }
    if !found { return None; }
    assert out == ReplaceJob(jobs, id, c);
    return Some(out);
  }

  function Deadline(st: ManagedState, at: real): Option<real> {
    if !st.spec.detached && st.spec.leaseSeconds.Some? then Some(at + st.spec.leaseSeconds.value)
    else st.leaseDeadline
  }

  function Created(spec: RunSpec, e: ManagedEvent): ManagedState {
    ManagedState(spec, spec.task, e.at, e.at, Starting, None, spec.resourceKeys == [], 1, e.seqNo, None,
                 Some(e.at),
                 if spec.detached || spec.leaseSeconds.None? then None else Some(e.at + spec.leaseSeconds.value),
                 map[], [], Null, None)
  }

  function OrElse(text: string, otherwise: string): Option<string> { Some(if text == "" then otherwise else text) }

  predicate Cognitive(b: Body) {
    b.CognitionRequested? || b.CognitionCompleted? || b.CognitionCancelled? || b.CognitionExpired?
  }

  /** The job list after an event; the four cognition events are accepted or rejected by it alone. */
  function NextJobs(jobs: seq<CognitionJob>, e: ManagedEvent): Result<seq<CognitionJob>> {
    match e.body
    case CognitionRequested(id, question, context, schema, keys, deadline) =>
      if FindJob(jobs, id).Some? then Err(DuplicateJob)
      else Ok(jobs + [CognitionJob(id, 1, question, context, schema, keys, e.at, deadline, Pending, Null, map[], None)])
    case CognitionCompleted(id, version, result, evidence) =>
      var job := FindJob(jobs, id);
      if job.None? || !job.value.status.Pending? then Err(NotPending)
      else if version != job.value.version + 1 then Err(WrongVersion)
      else Ok(ReplaceJob(jobs, id, Change(version, Completed, Some((result, evidence)), None)))
    case CognitionCancelled(id, error) => Withdraw(jobs, id, Withdrawn, OrElse(error, "cancelled"))
    case CognitionExpired(id, error) => Withdraw(jobs, id, Overdue, OrElse(error, "expired"))
    case _ => Ok(jobs)
  }

  function Withdraw(jobs: seq<CognitionJob>, id: string, status: CognitionStatus, error: Option<string>)
    : Result<seq<CognitionJob>>
  {
    var job := FindJob(jobs, id);
    if job.None? || !job.value.status.Pending? then Err(NotPending)
    else Ok(ReplaceJob(jobs, id, Change(job.value.version + 1, status, None, error)))
  }

  function Apply(before: Option<ManagedState>, e: ManagedEvent): Result<ManagedState> {
    if e.body.RunCreated? then if before.Some? then Err(AlreadyCreated) else Ok(Created(e.body.spec, e))
    else if before.None? then Err(NotCreated)
    else
      var st := before.value.(updatedAt := e.at, eventSeq := e.seqNo);
      if Cognitive(e.body) then
        var jobs := NextJobs(st.cognition, e);
        if jobs.Err? then Err(jobs.reason) else Ok(st.(cognition := jobs.value))
      else ApplyRun(st, e)
  }

  /** The events that do not touch cognition, on a state that already carries their time and number. */
  function ApplyRun(st: ManagedState, e: ManagedEvent): Result<ManagedState>
    requires !Cognitive(e.body)
  {
    match e.body
    case RunCreated(spec) => Err(AlreadyCreated)
    case WorkerStarted(pid) =>
      if !st.status.Starting? then Err(CannotStart)
      else Ok(st.(status := Running, pid := Some(pid), heartbeatAt := Some(e.at), leaseDeadline := Deadline(st, e.at)))
    case Heartbeat => Ok(st.(heartbeatAt := Some(e.at), leaseDeadline := Deadline(st, e.at)))
    case ControllerSnapshot(snapshot) => Ok(st.(controller := snapshot))
    case TaskUpdated(patch) => Ok(st.(task := st.task + patch, configVersion := st.configVersion + 1))
    case StopRequested(reason) =>
      if st.status.Terminal() then Ok(st)
      else Ok(st.(status := Stopping,
                  stopReason := Some(if reason.Some? && reason.value != "" then reason.value else "stop_requested")))
    case ResourcesReleased => Ok(st.(resourcesReleased := true))
    case RunFinished(status, reason, output) =>
      if !status.Terminal() then Err(NotTerminal)
      else if st.status.Terminal() then Err(AlreadyTerminal)
      else Ok(st.(status := status, stopReason := reason, output := output))
    case ErrorRaised(error) => Ok(st.(lastError := OrElse(error, "unknown error")))
  }

  /** The fold of a journal; `None` is the state before any event. Sequence numbers must be 1, 2, ... */
  function Fold(events: seq<ManagedEvent>): Result<Option<ManagedState>> {
    if events == [] then Ok(None)
    else
      var before := Fold(events[..|events| - 1]);
      var e := events[|events| - 1];
      if before.Err? then Err(before.reason)
      else if e.seqNo != |events| then Err(SequenceMoved)
      else
        var after := Apply(before.value, e);
        if after.Err? then Err(after.reason) else Ok(Some(after.value))
  }

  function Replay(events: seq<ManagedEvent>): Result<ManagedState> {
    var r := Fold(events);
    if r.Err? then Err(r.reason) else if r.value.None? then Err(EmptyJournal) else Ok(r.value.value)
  }

  lemma FoldAppend(events: seq<ManagedEvent>, e: ManagedEvent)
    ensures Fold(events + [e])
         == if Fold(events).Err? then Fold(events)
            else if e.seqNo != |events| + 1 then Err(SequenceMoved)
            else
              var after := Apply(Fold(events).value, e);
              if after.Err? then Err(after.reason) else Ok(Some(after.value))
  {
    assert (events + [e])[..|events|] == events;
  }

  /** An error is final: no longer journal replays. */
  lemma {:induction false} FoldPrefix(events: seq<ManagedEvent>, k: nat)
    requires k <= |events| && Fold(events).Ok?
    ensures Fold(events[..k]).Ok? && (k > 0 ==> Fold(events[..k]).value.Some?)
    ensures k > 0 ==> events[k - 1].seqNo == k
  {
    if k == |events| {
      assert events[..k] == events;
    } else {
      FoldPrefix(events[..|events| - 1], k);
      assert events[..|events| - 1][..k] == events[..k];
    }
  }

  /** `replay` as the source writes it: a loop with a running sequence number. */
  method ReplayLoop(events: seq<ManagedEvent>) returns (r: Result<ManagedState>)
    ensures r == Replay(events)
  {
    var state: Option<ManagedState> := None;
    var previous := 0;
    for i := 0 to |events|
      invariant previous == i && Fold(events[..i]) == Ok(state)
    {
      assert events[..i + 1] == events[..i] + [events[i]];
      FoldAppend(events[..i], events[i]);
      if events[i].seqNo != previous + 1 {
        FoldStuck(events, i + 1);
        return Err(SequenceMoved);
      }
      var next := Apply(state, events[i]);
      if next.Err? {
        FoldStuck(events, i + 1);
        return Err(next.reason);
      }
      state := Some(next.value);
      previous := events[i].seqNo;
    }
    assert events[..|events|] == events;
    if state.None? { return Err(EmptyJournal); }
    return Ok(state.value);
  }

  lemma {:induction false} FoldStuck(events: seq<ManagedEvent>, k: nat)
    requires k <= |events| && Fold(events[..k]).Err?
    ensures Fold(events) == Err(Fold(events[..k]).reason)
  {
    if k == |events| {
      assert events[..k] == events;
    } else {
      assert events[..|events| - 1][..k] == events[..k];
      FoldStuck(events[..|events| - 1], k);
    }
  }
}
