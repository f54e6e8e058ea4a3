/** Every cognition job of a managed run, said without the reducer: the request that made it and the
    event that settled it (host/reduce.py:11-22, 85-137). */
module HostJobs {
  import opened JsonModel
  import opened HostLifecycle
  import opened HostReduce
  import opened Logs

  ghost predicate Settles(e: ManagedEvent, id: string) {
    match e.body
    case CognitionCompleted(settled, _, _, _) => settled == id
    case CognitionCancelled(settled, _) => settled == id
    case CognitionExpired(settled, _) => settled == id
    case _ => false
  }

  /** The job carries what its request said. */
  ghost predicate MadeBy(e: ManagedEvent, job: CognitionJob) {
    && e.body == CognitionRequested(job.jobId, job.question, job.context, job.outputSchema, job.resourceKeys,
                                    job.deadlineAt)
    && job.requestedAt == e.at
  }

  /** The job carries what the event that settled it said. */
  ghost predicate SettledBy(e: ManagedEvent, job: CognitionJob) {
    match e.body
    case CognitionCompleted(_, _, result, evidence) =>
      job.status == Completed && job.version == 2 && job.result == result && job.evidence == evidence
      && job.error == None
    case CognitionCancelled(_, why) =>
      job.status == Withdrawn && job.version == 2 && job.result == Null && job.evidence == map[]
      && job.error == Some(if why == "" then "cancelled" else why)
    case CognitionExpired(_, why) =>
      job.status == Overdue && job.version == 2 && job.result == Null && job.evidence == map[]
      && job.error == Some(if why == "" then "expired" else why)
    case _ => true
  }

  predicate Untouched(job: CognitionJob) {
    job.status == Pending && job.version == 1 && job.result == Null && job.evidence == map[] && job.error == None
  }

  ghost predicate NobodySettles(events: seq<ManagedEvent>, id: string) {
    forall j | 0 <= j < |events| :: !Settles(events[j], id)
  }

  ghost predicate Stands(events: seq<ManagedEvent>, job: CognitionJob) {
    && (forall j | 0 <= j < |events| && Settles(events[j], job.jobId) :: SettledBy(events[j], job))
    && (NobodySettles(events, job.jobId) ==> Untouched(job))
  }

  /** The jobs are the requests, in their order. */
  ghost predicate Listed(events: seq<ManagedEvent>, jobs: seq<CognitionJob>) {
    && |jobs| == Count(events, REQUESTS)
    && (forall i | 0 <= i < |events| && REQUESTS(events[i]) ::
          Count(events[..i], REQUESTS) < |jobs| && MadeBy(events[i], jobs[Count(events[..i], REQUESTS)]))
    && (forall q | 0 <= q < |jobs| :: Stands(events, jobs[q]))
  }

  /** Nothing settles a job that is not there. */
  ghost predicate Known(events: seq<ManagedEvent>, jobs: seq<CognitionJob>) {
    forall id: string | !NobodySettles(events, id) :: FindJob(jobs, id).Some?
  }

  lemma NobodyAppend(events: seq<ManagedEvent>, e: ManagedEvent, id: string)
    ensures NobodySettles(events + [e], id) <==> NobodySettles(events, id) && !Settles(e, id)
  {
    var longer := events + [e];
    assert forall j | 0 <= j < |events| :: longer[j] == events[j];
    assert longer[|events|] == e;
  }

  lemma StandsLonger(events: seq<ManagedEvent>, e: ManagedEvent, job: CognitionJob)
    requires Stands(events, job) && !Settles(e, job.jobId)
    ensures Stands(events + [e], job)
  {
    hide Settles, SettledBy;
    NobodyAppend(events, e, job.jobId);
    var longer := events + [e];
    assert forall j | 0 <= j < |events| :: longer[j] == events[j];
    assert longer[|events|] == e;
  }

  /** A pending job that one more event settles. */
  lemma StandsSettled(events: seq<ManagedEvent>, e: ManagedEvent, job: CognitionJob, after: CognitionJob)
    requires Stands(events, job) && job.status == Pending
    requires Settles(e, job.jobId) && after.jobId == job.jobId && SettledBy(e, after)
    ensures Stands(events + [e], after)
  {
    NobodyAppend(events, e, job.jobId);
    var longer := events + [e];
    assert forall j | 0 <= j < |events| :: longer[j] == events[j];
    assert longer[|events|] == e;
    assert NobodySettles(events, job.jobId);
  }

  lemma ListedLonger(events: seq<ManagedEvent>, e: ManagedEvent, jobs: seq<CognitionJob>, after: seq<CognitionJob>)
    requires Listed(events, jobs) && !REQUESTS(e) && |after| == |jobs|
    requires forall q | 0 <= q < |jobs| :: Stands(events + [e], after[q])
    requires forall q, d: ManagedEvent | 0 <= q < |jobs| :: MadeBy(d, jobs[q]) ==> MadeBy(d, after[q])
    ensures Listed(events + [e], after)
  {
    hide Stands, MadeBy, Count;
    CountAppend(events, e, REQUESTS);
    var longer := events + [e];
    forall i | 0 <= i < |longer| && REQUESTS(longer[i])
      ensures Count(longer[..i], REQUESTS) < |after| && MadeBy(longer[i], after[Count(longer[..i], REQUESTS)])
    {
      assert i < |events| && longer[i] == events[i] && longer[..i] == events[..i];
    }
  }

  lemma RequestIsListed(events: seq<ManagedEvent>, e: ManagedEvent, jobs: seq<CognitionJob>, after: seq<CognitionJob>)
    requires Listed(events, jobs) && Known(events, jobs) && REQUESTS(e)
    requires NextJobs(jobs, e) == Ok(after)
    ensures Listed(events + [e], after) && Known(events + [e], after)
  {
    hide Stands, Count, FindJob;
    CountAppend(events, e, REQUESTS);
    var longer := events + [e];
    var job := after[|jobs|];
    assert after == jobs + [job];
    assert NobodySettles(events, job.jobId);
    NobodyAppend(events, e, job.jobId);
    assert Stands(longer, job) by { FreshStands(longer, job); }
    forall q | 0 <= q < |jobs| ensures Stands(longer, after[q]) { StandsLonger(events, e, jobs[q]); }
    forall i | 0 <= i < |longer| && REQUESTS(longer[i])
      ensures Count(longer[..i], REQUESTS) < |after| && MadeBy(longer[i], after[Count(longer[..i], REQUESTS)])
    {
      if i < |events| {
        assert longer[i] == events[i] && longer[..i] == events[..i];
      } else {
        assert longer[..i] == events;
      }
    }
    forall id: string | !NobodySettles(longer, id) ensures FindJob(after, id).Some? {
      NobodyAppend(events, e, id);
      FindLonger(jobs, job, id);
    }
  }

  lemma FreshStands(events: seq<ManagedEvent>, job: CognitionJob)
    requires NobodySettles(events, job.jobId) && Untouched(job)
    ensures Stands(events, job)
  {
  }

  lemma FindLonger(jobs: seq<CognitionJob>, job: CognitionJob, id: string)
    requires FindJob(jobs, id).Some?
    ensures FindJob(jobs + [job], id).Some?
  {
    var found := FindJob(jobs, id).value;
    var i :| 0 <= i < |jobs| && jobs[i] == found;
    assert (jobs + [job])[i] == found;
  }

  /** What a settlement does to the jobs. */
  lemma SettlementIs(jobs: seq<CognitionJob>, e: ManagedEvent, id: string)
    requires Settles(e, id) && NextJobs(jobs, e).Ok?
    requires DistinctJobs(jobs) && VersionedJobs(jobs)
    requires forall q | 0 <= q < |jobs| && jobs[q].status == Pending :: Untouched(jobs[q])
    ensures var after := NextJobs(jobs, e).value;
            && |after| == |jobs|
            && (forall q | 0 <= q < |jobs| && jobs[q].jobId != id :: after[q] == jobs[q])
            && (forall q | 0 <= q < |jobs| && jobs[q].jobId == id ::
                  jobs[q].status == Pending && after[q].jobId == id && SettledBy(e, after[q])
                  && after[q].question == jobs[q].question && after[q].context == jobs[q].context
                  && after[q].outputSchema == jobs[q].outputSchema && after[q].resourceKeys == jobs[q].resourceKeys
                  && after[q].deadlineAt == jobs[q].deadlineAt && after[q].requestedAt == jobs[q].requestedAt)
            && FindJob(jobs, id).Some?
  {
    hide FindJob, ReplaceJob;
    FindUnique(jobs, id);
  }

  lemma PendingIsUntouched(events: seq<ManagedEvent>, jobs: seq<CognitionJob>)
    requires Listed(events, jobs)
    ensures forall q | 0 <= q < |jobs| && jobs[q].status == Pending :: Untouched(jobs[q])
  {
    forall q | 0 <= q < |jobs| && jobs[q].status == Pending ensures Untouched(jobs[q]) {
      assert Stands(events, jobs[q]);
    }
  }

  lemma SettlementIsListed(events: seq<ManagedEvent>, e: ManagedEvent, jobs: seq<CognitionJob>, id: string)
    requires Listed(events, jobs) && Known(events, jobs) && Settles(e, id) && NextJobs(jobs, e).Ok?
    requires DistinctJobs(jobs) && VersionedJobs(jobs)
    ensures var after := NextJobs(jobs, e).value; Listed(events + [e], after) && Known(events + [e], after)
  {
    hide Stands, Count, FindJob, NextJobs, DistinctJobs, VersionedJobs, SettledBy, Untouched;
    PendingIsUntouched(events, jobs);
    SettlementIs(jobs, e, id);
    var after := NextJobs(jobs, e).value;
    forall q | 0 <= q < |jobs| ensures Stands(events + [e], after[q]) {
      if jobs[q].jobId == id {
        StandsSettled(events, e, jobs[q], after[q]);
      } else {
        StandsLonger(events, e, jobs[q]);
      }
    }
    ListedLonger(events, e, jobs, after);
    forall other: string | !NobodySettles(events + [e], other) ensures FindJob(after, other).Some? {
      NobodyAppend(events, e, other);
      FindChanged(jobs, after, other);
    }
  }

  lemma FindChanged(jobs: seq<CognitionJob>, after: seq<CognitionJob>, id: string)
    requires |after| == |jobs| && forall q | 0 <= q < |jobs| :: after[q].jobId == jobs[q].jobId
    requires FindJob(jobs, id).Some?
    ensures FindJob(after, id).Some?
  {
    var i :| 0 <= i < |jobs| && jobs[i] == FindJob(jobs, id).value;
    assert after[i].jobId == id;
  }

  lemma OtherIsListed(events: seq<ManagedEvent>, e: ManagedEvent, jobs: seq<CognitionJob>)
    requires Listed(events, jobs) && Known(events, jobs) && !Cognitive(e.body)
    ensures Listed(events + [e], jobs) && Known(events + [e], jobs)
  {
    hide Stands, Count, FindJob;
    forall q | 0 <= q < |jobs| ensures Stands(events + [e], jobs[q]) { StandsLonger(events, e, jobs[q]); }
    ListedLonger(events, e, jobs, jobs);
    forall id: string | !NobodySettles(events + [e], id) ensures FindJob(jobs, id).Some? {
      NobodyAppend(events, e, id);
    }
  }

  lemma JobsOfApply(st: ManagedState, e: ManagedEvent)
    requires Apply(Some(st), e).Ok?
    ensures if Cognitive(e.body) then NextJobs(st.cognition, e) == Ok(Apply(Some(st), e).value.cognition)
            else Apply(Some(st), e).value.cognition == st.cognition
  {
    hide NextJobs, Deadline, OrElse;
  }

  lemma FirstIsListed(e: ManagedEvent)
    requires Apply(None, e).Ok?
    ensures Listed([e], Apply(None, e).value.cognition) && Known([e], Apply(None, e).value.cognition)
  {
    hide Count;
    CountAppend([], e, REQUESTS);
    assert [] + [e] == [e];
    assert Count([], REQUESTS) == 0 by { NothingCounts(); }
  }

  lemma NothingCounts()
    ensures Count([], REQUESTS) == 0
  {
  }

  /** The job list of every journal that replays: one job for each request, in order, that carries what
      the request asked for, and what the one event that settled it said. */
  lemma {:induction false} JobsAreWhatTheEventsSay(events: seq<ManagedEvent>)
    requires Replay(events).Ok?
    ensures Listed(events, Replay(events).value.cognition) && Known(events, Replay(events).value.cognition)
  {
    hide Apply, Listed, Known, NextJobs;
    var before, e := events[..|events| - 1], events[|events| - 1];
    assert events == before + [e];
    if before == [] {
      FoldAppend([], e);
      assert events == [] + [e] == [e];
      FirstIsListed(e);
    } else {
      FoldPrefix(events, |before|);
      JobsAreWhatTheEventsSay(before);
      ReplayIsLawful(before);
      var st := Replay(before).value;
      JobsOfApply(st, e);
      var after := Apply(Some(st), e).value.cognition;
      if REQUESTS(e) {
        RequestIsListed(before, e, st.cognition, after);
      } else if Cognitive(e.body) {
        var id := match e.body case CognitionCompleted(id, _, _, _) => id case CognitionCancelled(id, _) => id
                               case CognitionExpired(id, _) => id;
        SettlementIsListed(before, e, st.cognition, id);
      } else {
        OtherIsListed(before, e, st.cognition);
      }
    }
  }
}
