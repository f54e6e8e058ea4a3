/** The lifecycle of a managed run over every accepted event sequence (host/reduce.py). */
module HostLifecycle {
  import opened JsonModel
  import opened HostReduce
  import opened Logs

  ghost function CountJobs(jobs: seq<CognitionJob>, status: CognitionStatus): nat {
    if jobs == [] then 0
    else CountJobs(jobs[..|jobs| - 1], status) + if jobs[|jobs| - 1].status == status then 1 else 0
  }

  const REQUESTS: ManagedEvent -> bool := (e: ManagedEvent) => e.body.CognitionRequested?
  const COMPLETIONS: ManagedEvent -> bool := (e: ManagedEvent) => e.body.CognitionCompleted?
  const WITHDRAWALS: ManagedEvent -> bool := (e: ManagedEvent) => e.body.CognitionCancelled?
  const EXPIRIES: ManagedEvent -> bool := (e: ManagedEvent) => e.body.CognitionExpired?
  const TASK_UPDATES: ManagedEvent -> bool := (e: ManagedEvent) => e.body.TaskUpdated?
  const FINISHES: ManagedEvent -> bool := (e: ManagedEvent) => e.body.RunFinished?
  const RELEASES: ManagedEvent -> bool := (e: ManagedEvent) => e.body.ResourcesReleased?

  predicate DistinctJobs(jobs: seq<CognitionJob>) {
    forall i, j | 0 <= i < j < |jobs| :: jobs[i].jobId != jobs[j].jobId
  }

  predicate VersionedJobs(jobs: seq<CognitionJob>) {
    forall i | 0 <= i < |jobs| :: jobs[i].version == if jobs[i].status.Pending? then 1 else 2
  }

  ghost predicate Leased(st: ManagedState) {
    && st.heartbeatAt.Some?
    && st.leaseDeadline == if st.spec.detached || st.spec.leaseSeconds.None? then None
                           else Some(st.heartbeatAt.value + st.spec.leaseSeconds.value)
  }

  ghost predicate Counted(events: seq<ManagedEvent>, st: ManagedState) {
    && st.eventSeq == |events|
    && st.configVersion == 1 + Count(events, TASK_UPDATES)
    && Count(events, FINISHES) == (if st.status.Terminal() then 1 else 0)
    && (st.resourcesReleased <==> st.spec.resourceKeys == [] || Count(events, RELEASES) > 0)
  }

  /** Every request is in the job list, under exactly one status. */
  ghost predicate Conserved(events: seq<ManagedEvent>, st: ManagedState) {
    && |st.cognition| == Count(events, REQUESTS)
    && CountJobs(st.cognition, Completed) == Count(events, COMPLETIONS)
    && CountJobs(st.cognition, Withdrawn) == Count(events, WITHDRAWALS)
    && CountJobs(st.cognition, Overdue) == Count(events, EXPIRIES)
  }

  ghost predicate Lawful(events: seq<ManagedEvent>, st: ManagedState) {
    Leased(st) && Counted(events, st) && Conserved(events, st) && DistinctJobs(st.cognition)
      && VersionedJobs(st.cognition)
  }

  lemma CountJobsAppend(jobs: seq<CognitionJob>, job: CognitionJob, status: CognitionStatus)
    ensures CountJobs(jobs + [job], status) == CountJobs(jobs, status) + if job.status == status then 1 else 0
  {
    assert (jobs + [job])[..|jobs|] == jobs;
  }

  lemma {:induction false} PartitionOfJobs(jobs: seq<CognitionJob>)
    ensures |jobs| == CountJobs(jobs, Pending) + CountJobs(jobs, Completed) + CountJobs(jobs, Withdrawn)
                      + CountJobs(jobs, Overdue)
  {
    if jobs != [] { PartitionOfJobs(jobs[..|jobs| - 1]); }
  }

  /** Replacing one job changes one count by one, and the rest not at all. */
  lemma {:induction false} ReplaceCounts(jobs: seq<CognitionJob>, id: string, c: Change, status: CognitionStatus)
    requires DistinctJobs(jobs)
    ensures CountJobs(ReplaceJob(jobs, id, c), status)
         == CountJobs(jobs, status)
            + (if FindJob(jobs, id).Some? && c.status == status then 1 else 0)
            - (if FindJob(jobs, id).Some? && FindJob(jobs, id).value.status == status then 1 else 0)
  {
    hide ReplaceJob, FindJob;
    if jobs != [] {
      var init := jobs[..|jobs| - 1];
      ReplaceCounts(init, id, c, status);
      FindInInit(jobs, id);
      ReplaceInit(jobs, id, c);
    }
  }

  lemma ReplaceInit(jobs: seq<CognitionJob>, id: string, c: Change)
    requires jobs != []
    ensures var r, last := ReplaceJob(jobs, id, c), jobs[|jobs| - 1];
            && r[..|r| - 1] == ReplaceJob(jobs[..|jobs| - 1], id, c)
            && r[|r| - 1] == if last.jobId == id then Changed(last, c) else last
  {
  }

  lemma FindInInit(jobs: seq<CognitionJob>, id: string)
    requires jobs != [] && DistinctJobs(jobs)
    ensures var init, last := jobs[..|jobs| - 1], jobs[|jobs| - 1];
            FindJob(jobs, id) == if last.jobId == id then Some(last) else FindJob(init, id)
    ensures jobs[|jobs| - 1].jobId == id ==> FindJob(jobs[..|jobs| - 1], id).None?
  {
    var init, last := jobs[..|jobs| - 1], jobs[|jobs| - 1];
    assert jobs == init + [last];
    FindUnique(jobs, id);
    FindUnique(init, id);
  }

  lemma FindUnique(jobs: seq<CognitionJob>, id: string)
    requires DistinctJobs(jobs)
    ensures forall i | 0 <= i < |jobs| && jobs[i].jobId == id :: FindJob(jobs, id) == Some(jobs[i])
  {
    var found := FindJob(jobs, id);
    if found.Some? {
      var k :| 0 <= k < |jobs| && jobs[k] == found.value;
    }
  }

  lemma ReplaceKeepsIds(jobs: seq<CognitionJob>, id: string, c: Change)
    requires DistinctJobs(jobs)
    ensures DistinctJobs(ReplaceJob(jobs, id, c))
  {
    hide ReplaceJob;
    var n := ReplaceJob(jobs, id, c);
    assert forall i | 0 <= i < |n| :: n[i].jobId == jobs[i].jobId;
  }

  lemma SettleShape(jobs: seq<CognitionJob>, id: string, c: Change)
    requires DistinctJobs(jobs) && VersionedJobs(jobs) && c.version == 2 && !c.status.Pending?
    ensures DistinctJobs(ReplaceJob(jobs, id, c)) && VersionedJobs(ReplaceJob(jobs, id, c))
  {
    hide ReplaceJob, DistinctJobs;
    ReplaceKeepsIds(jobs, id, c);
    ChangedIsSettled(c);
  }

  lemma ChangedIsSettled(c: Change)
    ensures forall job :: Changed(job, c).version == c.version && Changed(job, c).status == c.status
  {
  }

  lemma SettleKeeps(jobs: seq<CognitionJob>, id: string, c: Change)
    requires DistinctJobs(jobs) && VersionedJobs(jobs)
    requires FindJob(jobs, id).Some? && FindJob(jobs, id).value.status.Pending? && c.version == 2 && !c.status.Pending?
    ensures var n := ReplaceJob(jobs, id, c);
            && DistinctJobs(n) && VersionedJobs(n)
            && forall s: CognitionStatus | !s.Pending? ::
                 CountJobs(n, s) == CountJobs(jobs, s) + if s == c.status then 1 else 0
  {
    hide CountJobs, ReplaceJob, VersionedJobs;
    SettleShape(jobs, id, c);
    forall s: CognitionStatus | !s.Pending?
      ensures CountJobs(ReplaceJob(jobs, id, c), s) == CountJobs(jobs, s) + if s == c.status then 1 else 0
    {
      ReplaceCounts(jobs, id, c, s);
    }
  }

  lemma AppendKeeps(jobs: seq<CognitionJob>, job: CognitionJob)
    requires DistinctJobs(jobs) && VersionedJobs(jobs)
    requires FindJob(jobs, job.jobId).None? && job.status.Pending? && job.version == 1
    ensures var n := jobs + [job];
            && DistinctJobs(n) && VersionedJobs(n)
            && forall s: CognitionStatus | !s.Pending? :: CountJobs(n, s) == CountJobs(jobs, s)
  {
    forall s: CognitionStatus | !s.Pending? ensures CountJobs(jobs + [job], s) == CountJobs(jobs, s) {
      CountJobsAppend(jobs, job, s);
    }
  }

  lemma JobCountsAppend(events: seq<ManagedEvent>, e: ManagedEvent)
    ensures var longer := events + [e];
            && Count(longer, REQUESTS) == Count(events, REQUESTS) + (if e.body.CognitionRequested? then 1 else 0)
            && Count(longer, COMPLETIONS) == Count(events, COMPLETIONS) + (if e.body.CognitionCompleted? then 1 else 0)
            && Count(longer, WITHDRAWALS) == Count(events, WITHDRAWALS) + (if e.body.CognitionCancelled? then 1 else 0)
            && Count(longer, EXPIRIES) == Count(events, EXPIRIES) + (if e.body.CognitionExpired? then 1 else 0)
  {
    CountAppend(events, e, REQUESTS);
    CountAppend(events, e, COMPLETIONS);
    CountAppend(events, e, WITHDRAWALS);
    CountAppend(events, e, EXPIRIES);
  }

  lemma VersionOfPending(jobs: seq<CognitionJob>, id: string)
    requires VersionedJobs(jobs) && FindJob(jobs, id).Some? && FindJob(jobs, id).value.status.Pending?
    ensures FindJob(jobs, id).value.version == 1
  {
    var i :| 0 <= i < |jobs| && jobs[i] == FindJob(jobs, id).value;
  }

  lemma LengthOfReplace(jobs: seq<CognitionJob>, id: string, c: Change)
    ensures |ReplaceJob(jobs, id, c)| == |jobs|
  {
  }

  /** A settled job: the three events that end a pending one. */
  ghost function Settlement(e: ManagedEvent): Option<(string, Change)> {
    match e.body
    case CognitionCompleted(id, version, result, evidence) =>
      Some((id, Change(version, Completed, Some((result, evidence)), None)))
    case CognitionCancelled(id, error) => Some((id, Change(2, Withdrawn, None, OrElse(error, "cancelled"))))
    case CognitionExpired(id, error) => Some((id, Change(2, Overdue, None, OrElse(error, "expired"))))
    case _ => None
  }

  lemma SettlementOf(jobs: seq<CognitionJob>, e: ManagedEvent)
    requires VersionedJobs(jobs) && NextJobs(jobs, e).Ok? && Settlement(e).Some?
    ensures var (id, c) := Settlement(e).value;
            && FindJob(jobs, id).Some? && FindJob(jobs, id).value.status.Pending? && c.version == 2
               && !c.status.Pending?
            && NextJobs(jobs, e).value == ReplaceJob(jobs, id, c)
  {
    hide ReplaceJob, FindJob, VersionedJobs;
    VersionOfPending(jobs, Settlement(e).value.0);
  }

  /** The job list after one accepted event. */
  lemma JobsOfEvent(jobs: seq<CognitionJob>, e: ManagedEvent)
    requires DistinctJobs(jobs) && VersionedJobs(jobs) && NextJobs(jobs, e).Ok?
    ensures var n := NextJobs(jobs, e).value;
            && DistinctJobs(n) && VersionedJobs(n)
            && |n| == |jobs| + (if e.body.CognitionRequested? then 1 else 0)
            && (forall s: CognitionStatus | !s.Pending? ::
                  CountJobs(n, s) == CountJobs(jobs, s) + if Settles(e.body, s) then 1 else 0)
  {
    hide CountJobs, DistinctJobs, VersionedJobs, FindJob, ReplaceJob;
    if Settlement(e).Some? {
      SettledJobs(jobs, e);
    } else if e.body.CognitionRequested? {
      RequestedJobs(jobs, e);
    }
  }

  lemma SettledJobs(jobs: seq<CognitionJob>, e: ManagedEvent)
    requires DistinctJobs(jobs) && VersionedJobs(jobs) && NextJobs(jobs, e).Ok? && Settlement(e).Some?
    ensures var n := NextJobs(jobs, e).value;
            && DistinctJobs(n) && VersionedJobs(n) && |n| == |jobs|
            && (forall s: CognitionStatus | !s.Pending? ::
                  CountJobs(n, s) == CountJobs(jobs, s) + if Settles(e.body, s) then 1 else 0)
  {
    hide NextJobs, CountJobs, DistinctJobs, VersionedJobs, FindJob, ReplaceJob, OrElse;
    var (id, c) := Settlement(e).value;
    SettlementOf(jobs, e);
    SettleKeeps(jobs, id, c);
    LengthOfReplace(jobs, id, c);
  }

  lemma RequestedJobs(jobs: seq<CognitionJob>, e: ManagedEvent)
    requires DistinctJobs(jobs) && VersionedJobs(jobs) && NextJobs(jobs, e).Ok? && e.body.CognitionRequested?
    ensures var n := NextJobs(jobs, e).value;
            && DistinctJobs(n) && VersionedJobs(n) && |n| == |jobs| + 1
            && (forall s: CognitionStatus | !s.Pending? :: CountJobs(n, s) == CountJobs(jobs, s))
  {
    hide CountJobs, DistinctJobs, VersionedJobs, FindJob, ReplaceJob;
    var n := NextJobs(jobs, e).value;
    assert n == jobs + [n[|jobs|]];
    AppendKeeps(jobs, n[|jobs|]);
  }

  /** Cognition events change the job list; the other events leave it alone. */
  lemma JobsOfApply(st: ManagedState, e: ManagedEvent)
    requires Apply(Some(st), e).Ok?
    ensures NextJobs(st.cognition, e) == Ok(Apply(Some(st), e).value.cognition)
  {
    hide FindJob, ReplaceJob;
  }

  predicate Settles(b: Body, s: CognitionStatus) {
    (s.Completed? && b.CognitionCompleted?) || (s.Withdrawn? && b.CognitionCancelled?)
    || (s.Overdue? && b.CognitionExpired?)
  }

  lemma ConservedByApply(events: seq<ManagedEvent>, st: ManagedState, e: ManagedEvent)
    requires Conserved(events, st) && DistinctJobs(st.cognition) && VersionedJobs(st.cognition)
    requires Apply(Some(st), e).Ok?
    ensures Conserved(events + [e], Apply(Some(st), e).value)
  {
    hide Apply, NextJobs, Count, CountJobs, DistinctJobs, VersionedJobs;
    JobCountsAppend(events, e);
    JobsOfApply(st, e);
    JobsOfEvent(st.cognition, e);
  }

  lemma CountsOfApply(events: seq<ManagedEvent>, st: ManagedState, e: ManagedEvent)
    requires Leased(st) && Counted(events, st) && e.seqNo == |events| + 1
    requires Apply(Some(st), e).Ok?
    ensures var n := Apply(Some(st), e).value; Leased(n) && Counted(events + [e], n)
  {
    hide Count, Apply;
    CountAppend(events, e, TASK_UPDATES);
    CountAppend(events, e, FINISHES);
    CountAppend(events, e, RELEASES);
    LeaseOfApply(st, e);
    NumbersOfApply(st, e);
  }

  lemma LeaseOfApply(st: ManagedState, e: ManagedEvent)
    requires Leased(st) && Apply(Some(st), e).Ok?
    ensures Leased(Apply(Some(st), e).value)
  {
    hide NextJobs, OrElse;
  }

  lemma NumbersOfApply(st: ManagedState, e: ManagedEvent)
    requires Apply(Some(st), e).Ok?
    ensures var n := Apply(Some(st), e).value;
            && n.eventSeq == e.seqNo && n.spec == st.spec
            && n.configVersion == st.configVersion + (if e.body.TaskUpdated? then 1 else 0)
            && (n.resourcesReleased <==> st.resourcesReleased || e.body.ResourcesReleased?)
            && (n.status.Terminal() <==> st.status.Terminal() || e.body.RunFinished?)
            && (e.body.RunFinished? ==> !st.status.Terminal())
  {
    hide NextJobs, Deadline, OrElse;
  }

  lemma CreatedIsLawful(e: ManagedEvent)
    requires e.seqNo == 1 && Apply(None, e).Ok?
    ensures Lawful([e], Apply(None, e).value)
  {
    assert [e] == [] + [e];
    JobCountsAppend([], e);
    CountAppend([], e, TASK_UPDATES);
    CountAppend([], e, FINISHES);
    CountAppend([], e, RELEASES);
  }

  /** Every journal that replays obeys the lifecycle. */
  lemma {:induction false} ReplayIsLawful(events: seq<ManagedEvent>)
    requires Replay(events).Ok?
    ensures Lawful(events, Replay(events).value)
    ensures events[0].body.RunCreated? && forall i | 0 < i < |events| :: !events[i].body.RunCreated?
  {
    hide Lawful, ApplyRun, NextJobs;
    var before, e := events[..|events| - 1], events[|events| - 1];
    assert events == before + [e];
    if before == [] {
      FoldAppend([], e);
      assert events == [] + [e] == [e];
      CreatedIsLawful(e);
      OnlyCreation(None, e);
    } else {
      FoldPrefix(before, |before|);
      assert before[..|before|] == before;
      ReplayIsLawful(before);
      LawfulByApply(before, Replay(before).value, e);
      OnlyCreation(Some(Replay(before).value), e);
    }
  }

  lemma OnlyCreation(st: Option<ManagedState>, e: ManagedEvent)
    requires Apply(st, e).Ok?
    ensures e.body.RunCreated? <==> st.None?
  {
  }

  lemma LawfulByApply(events: seq<ManagedEvent>, st: ManagedState, e: ManagedEvent)
    requires Lawful(events, st) && e.seqNo == |events| + 1 && Apply(Some(st), e).Ok?
    ensures Lawful(events + [e], Apply(Some(st), e).value)
  {
    hide Apply, NextJobs, Leased, Counted, Conserved, DistinctJobs, VersionedJobs;
    CountsOfApply(events, st, e);
    ConservedByApply(events, st, e);
    JobsOfApply(st, e);
    JobsOfEvent(st.cognition, e);
  }

  /** Requests are conserved: pending + completed + cancelled + expired. */
  lemma RequestsAreConserved(events: seq<ManagedEvent>)
    requires Replay(events).Ok?
    ensures Count(events, REQUESTS)
         == CountJobs(Replay(events).value.cognition, Pending)
            + Count(events, COMPLETIONS) + Count(events, WITHDRAWALS) + Count(events, EXPIRIES)
  {
    ReplayIsLawful(events);
    PartitionOfJobs(Replay(events).value.cognition);
  }

  /** What a later state of the same journal may differ in from an earlier one. */
  ghost predicate Follows(earlier: ManagedState, later: ManagedState) {
    && later.spec == earlier.spec
    && earlier.status.Rank() <= later.status.Rank()
    && (earlier.status.Terminal() ==> later.status == earlier.status && later.output == earlier.output)
    && (earlier.resourcesReleased ==> later.resourcesReleased)
    && earlier.configVersion <= later.configVersion
    && |earlier.cognition| <= |later.cognition|
    && (forall i | 0 <= i < |earlier.cognition| :: SameOrSettled(earlier.cognition[i], later.cognition[i]))
  }

  predicate SameOrSettled(a: CognitionJob, b: CognitionJob) {
    && b.jobId == a.jobId && b.question == a.question && b.context == a.context
    && b.outputSchema == a.outputSchema && b.deadlineAt == a.deadlineAt
    && (!a.status.Pending? ==> b == a)
  }

  lemma JobsFollow(jobs: seq<CognitionJob>, e: ManagedEvent)
    requires NextJobs(jobs, e).Ok? && DistinctJobs(jobs)
    ensures var n := NextJobs(jobs, e).value;
            |jobs| <= |n| && forall i | 0 <= i < |jobs| :: SameOrSettled(jobs[i], n[i])
  {
    match e.body
    case CognitionCompleted(id, _, _, _) => FindUnique(jobs, id);
    case CognitionCancelled(id, _) => FindUnique(jobs, id);
    case CognitionExpired(id, _) => FindUnique(jobs, id);
    case _ =>
  }

  lemma ApplyFollows(st: ManagedState, e: ManagedEvent)
    requires Apply(Some(st), e).Ok? && DistinctJobs(st.cognition)
    ensures Follows(st, Apply(Some(st), e).value)
  {
    hide Apply, NextJobs, SameOrSettled, DistinctJobs;
    JobsOfApply(st, e);
    JobsFollow(st.cognition, e);
    NumbersOfApply(st, e);
    StatusFollows(st, e);
  }

  /** One event, seen from status, reason and output alone. */
  lemma StandsAfter(st: ManagedState, e: ManagedEvent)
    requires Apply(Some(st), e).Ok?
    ensures var n := Apply(Some(st), e).value;
            match e.body
            case WorkerStarted(_) => n.status == Running && n.stopReason == st.stopReason && n.output == st.output
            case StopRequested(reason) =>
              if st.status.Terminal()
              then n.status == st.status && n.stopReason == st.stopReason && n.output == st.output
              else n.status == Stopping && n.output == st.output
                   && n.stopReason == Some(if reason.Some? && reason.value != "" then reason.value
                                           else "stop_requested")
            case RunFinished(status, reason, output) =>
              n.status == status && n.stopReason == reason && n.output == output
            case _ => n.status == st.status && n.stopReason == st.stopReason && n.output == st.output
  {
    hide NextJobs, Deadline, OrElse;
  }

  lemma StatusFollows(st: ManagedState, e: ManagedEvent)
    requires Apply(Some(st), e).Ok?
    ensures var n := Apply(Some(st), e).value;
            && st.status.Rank() <= n.status.Rank()
            && (st.status.Terminal() ==> n.status == st.status && n.output == st.output)
  {
    hide Apply;
    StandsAfter(st, e);
    NumbersOfApply(st, e);
    WorkerStartsOnce(st, e);
  }

  lemma WorkerStartsOnce(st: ManagedState, e: ManagedEvent)
    requires Apply(Some(st), e).Ok?
    ensures e.body.WorkerStarted? ==> st.status.Starting?
    ensures e.body.RunFinished? ==> e.body.finalStatus.Terminal()
  {
    hide NextJobs, Deadline, OrElse;
  }

  lemma FollowsTransitively(a: ManagedState, b: ManagedState, c: ManagedState)
    requires Follows(a, b) && Follows(b, c)
    ensures Follows(a, c)
  {
  }

  /** Status never moves back, a terminal status and a settled job are final, released resources
      stay released: along every prefix of every journal that replays. */
  lemma {:induction false} HistoryOnlyMovesForward(events: seq<ManagedEvent>, k: nat)
    requires Replay(events).Ok? && 0 < k <= |events|
    ensures Replay(events[..k]).Ok? && Follows(Replay(events[..k]).value, Replay(events).value)
  {
    if k == |events| {
      assert events[..k] == events;
    } else {
      var before := events[..|events| - 1];
      assert before[..k] == events[..k];
      FoldPrefix(events, |before|);
      HistoryOnlyMovesForward(before, k);
      ReplayIsLawful(before);
      ApplyFollows(Replay(before).value, events[|events| - 1]);
      FollowsTransitively(Replay(events[..k]).value, Replay(before).value, Replay(events).value);
    }
  }
}
