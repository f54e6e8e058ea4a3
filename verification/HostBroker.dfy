/** The cognition broker of a managed run (host/runtime.py:60-205): it checks a shared recorder and
    emits under its own lock, while other writers append to the same journal. */
module HostBroker {
  import opened JsonModel
  import opened HostReduce
  import opened HostLifecycle
  import HostJournal

  const MAX_PENDING := 8
  const MAX_QUESTION := 4_000
  const MAX_CONTEXT := 32_000
  const MAX_SCHEMA := 16_000
  const MAX_RESULT := 200_000
  const MAX_EVIDENCE := 50_000

  /** The length of the JSON text of a value, if it has one, and the schema validator. */
  datatype Measure = Measure(size: Json -> Option<nat>, conforms: (Json, Fields) -> bool)

  predicate Within(m: Measure, value: Json, maximum: nat) {
    m.size(value).Some? && m.size(value).value <= maximum
  }

  datatype Refusal =
    | EmptyQuestion | LongQuestion | BadDeadline | LongDedupeKey | BadResourceKeys | TooLarge | TooManyPending
    | UnknownJob | AlreadySettled | VersionMoved | TooLate | BadResult
    | Reduced(reason: Reason)

  datatype Answer<+T> = Given(value: T) | Refused(why: Refusal)

  datatype Ask = Ask(question: string, context: Fields, outputSchema: Fields, resourceKeys: seq<string>,
                     deadlineSeconds: Option<real>, dedupeKey: Option<string>)
  {
    predicate Deduped() { dedupeKey.Some? && dedupeKey.value != "" }

    /** The context that is recorded. */
    function JobContext(): Fields {
      if Deduped() then context["dedupe_key" := Str(dedupeKey.value)] else context
    }
  }

  /** The checks that need no state, in the source's order. */
  function Refuses(m: Measure, a: Ask): Option<Refusal> {
    if HostJournal.Blank(a.question) then Some(EmptyQuestion)
    else if |a.question| > MAX_QUESTION then Some(LongQuestion)
    else if a.deadlineSeconds.Some? && !(1.0 <= a.deadlineSeconds.value <= 3600.0) then Some(BadDeadline)
    else if a.dedupeKey.Some? && |a.dedupeKey.value| > 200 then Some(LongDedupeKey)
    else if |a.resourceKeys| > 16
      || exists k | 0 <= k < |a.resourceKeys| :: |a.resourceKeys[k]| == 0 || |a.resourceKeys[k]| > 200
      then Some(BadResourceKeys)
    else if !Within(m, Obj(a.JobContext()), MAX_CONTEXT) || !Within(m, Obj(a.outputSchema), MAX_SCHEMA)
      then Some(TooLarge)
    else None
  }

  // ---- the job list ----

  function PendingJobs(jobs: seq<CognitionJob>): (r: seq<CognitionJob>)
    ensures forall j | j in r :: j in jobs && j.status.Pending?
    ensures forall i | 0 <= i < |jobs| && jobs[i].status.Pending? :: jobs[i] in r
  {
    if jobs == [] then []
    else PendingJobs(jobs[..|jobs| - 1]) + if jobs[|jobs| - 1].status.Pending? then [jobs[|jobs| - 1]] else []
  }

  function Key(job: CognitionJob): Option<Json> {
    if "dedupe_key" in job.context then Some(job.context["dedupe_key"]) else None
  }

  /** The id of the first pending job with a dedupe key. */
  function Twin(jobs: seq<CognitionJob>, key: string): (r: Option<string>)
    ensures r.Some? ==> exists i :: 0 <= i < |jobs| && jobs[i].jobId == r.value && jobs[i].status.Pending?
                                    && Key(jobs[i]) == Some(Str(key))
    ensures r.None? ==> forall i | 0 <= i < |jobs| && jobs[i].status.Pending? :: Key(jobs[i]) != Some(Str(key))
  {
    if jobs == [] then None
    else if Key(jobs[0]) == Some(Str(key)) && jobs[0].status.Pending? then Some(jobs[0].jobId)
    else
      var r := Twin(jobs[1..], key);
      r
  }

  predicate Due(job: CognitionJob, now: real) {
    job.status.Pending? && job.deadlineAt.Some? && now > job.deadlineAt.value
  }

  function SettleIds(jobs: seq<CognitionJob>, ids: set<string>, c: Change): (r: seq<CognitionJob>)
    ensures |r| == |jobs|
    ensures forall i | 0 <= i < |jobs| :: r[i] == if jobs[i].jobId in ids then Changed(jobs[i], c) else jobs[i]
  {
    if jobs == [] then []
    else [if jobs[0].jobId in ids then Changed(jobs[0], c) else jobs[0]] + SettleIds(jobs[1..], ids, c)
  }

  function PendingIds(jobs: seq<CognitionJob>): set<string> {
    set j | j in jobs && j.status.Pending? :: j.jobId
  }

  function DueIds(jobs: seq<CognitionJob>, now: real): set<string> {
    set j | j in jobs && Due(j, now) :: j.jobId
  }

  /** The ids of the due jobs, in order. */
  function DueList(jobs: seq<CognitionJob>, now: real): seq<string> {
    if jobs == [] then []
    else DueList(jobs[..|jobs| - 1], now) + if Due(jobs[|jobs| - 1], now) then [jobs[|jobs| - 1].jobId] else []
  }

  // ---- the shared recorder ----

  /** Something another writer appends; other writers never touch cognition. */
  datatype Other = Other(body: Body, at: real)

  type Others = s: seq<Other> | forall i | 0 <= i < |s| :: !Cognitive(s[i].body) witness []

  function Next(st: ManagedState, body: Body, at: real): Result<ManagedState> {
    Apply(Some(st), ManagedEvent(st.eventSeq + 1, at, body))
  }

  function Interleaved(st: ManagedState, others: Others): (r: ManagedState)
    ensures r.cognition == st.cognition
    decreases |others|
  {
    if others == [] then st
    else
      var o := others[0];
      var next := Next(st, o.body, o.at);
      Interleaved(if next.Ok? then next.value else st, others[1..])
  }

  /** `journal` is the replay of the file; `state` is what this process last saw of it. */
  class Recorder {
    var journal: ManagedState
    var state: ManagedState

    constructor (st: ManagedState)
      ensures journal == state == st
    {
      journal, state := st, st;
    }

    method Emit(body: Body, at: real, others: Others) returns (failure: Option<Reason>)
      requires Cognitive(body)
      modifies this
      ensures state == journal
      ensures var next := Next(Interleaved(old(journal), others), body, at);
              journal == if next.Ok? then next.value else Interleaved(old(journal), others)
      ensures var jobs := NextJobs(old(journal).cognition, ManagedEvent(0, at, body));
              if jobs.Ok? then failure == None && journal.cognition == jobs.value
              else failure == Some(jobs.reason) && journal.cognition == old(journal).cognition
    {
      journal := Interleaved(journal, others);
      state := journal;
      CognitionDecides(state, body, at);
      var next := Next(state, body, at);
      if next.Err? { return Some(next.reason); }
      journal, state := next.value, next.value;
      return None;
    }
  }

  /** Whether a cognition event is accepted, and what it does, depends on the job list alone: not
      on the number of the event, nor on anything other writers have appended. */
  lemma CognitionDecides(st: ManagedState, body: Body, at: real)
    requires Cognitive(body)
    ensures var next, jobs := Next(st, body, at), NextJobs(st.cognition, ManagedEvent(0, at, body));
            if jobs.Ok? then next.Ok? && next.value.cognition == jobs.value else next == Err(jobs.reason)
  {
    hide FindJob, ReplaceJob;
  }

  // ---- what each call does to the job list ----

  function RequestEvent(a: Ask, jobId: string, now: real): Body {
    CognitionRequested(jobId, a.question, a.JobContext(), a.outputSchema, a.resourceKeys,
                       if a.deadlineSeconds.Some? then Some(now + a.deadlineSeconds.value) else None)
  }

  function Requested(m: Measure, jobs: seq<CognitionJob>, a: Ask, jobId: string, now: real)
    : (seq<CognitionJob>, Answer<string>)
  {
    if Refuses(m, a).Some? then (jobs, Refused(Refuses(m, a).value))
    else if a.Deduped() && Twin(jobs, a.dedupeKey.value).Some? then (jobs, Given(Twin(jobs, a.dedupeKey.value).value))
    else if |PendingJobs(jobs)| >= MAX_PENDING then (jobs, Refused(TooManyPending))
    else
      var n := NextJobs(jobs, ManagedEvent(0, now, RequestEvent(a, jobId, now)));
      if n.Err? then (jobs, Refused(Reduced(n.reason))) else (n.value, Given(jobId))
  }

  datatype Reply = Reply(jobId: string, expectedVersion: int, result: Json, evidence: Fields)

  const LATE := Change(2, Overdue, None, Some("result arrived after deadline"))
  const ELAPSED := Change(2, Overdue, None, Some("cognition deadline elapsed"))

  function Cancelling(reason: string): Change { Change(2, Withdrawn, None, OrElse(reason, "cancelled")) }

  /** No branch for a rejection by the reducer: there is none. */
  function Completes(m: Measure, jobs: seq<CognitionJob>, a: Reply, clock: real)
    : (seq<CognitionJob>, Answer<CognitionJob>)
  {
    var job := FindJob(jobs, a.jobId);
    if job.None? then (jobs, Refused(UnknownJob))
    else if !job.value.status.Pending? then (jobs, Refused(AlreadySettled))
    else if job.value.version != a.expectedVersion then (jobs, Refused(VersionMoved))
    else if Due(job.value, clock) then (SettleIds(jobs, {a.jobId}, LATE), Refused(TooLate))
    else if !Within(m, a.result, MAX_RESULT) || !Within(m, Obj(a.evidence), MAX_EVIDENCE) then (jobs, Refused(TooLarge))
    else if !m.conforms(a.result, job.value.outputSchema) then (jobs, Refused(BadResult))
    else
      var c := Change(2, Completed, Some((a.result, a.evidence)), None);
      (SettleIds(jobs, {a.jobId}, c), Given(Changed(job.value, c)))
  }

  ghost predicate Legal(jobs: seq<CognitionJob>) { DistinctJobs(jobs) && VersionedJobs(jobs) }

  lemma ReplaceIsSettle(jobs: seq<CognitionJob>, id: string, c: Change)
    ensures ReplaceJob(jobs, id, c) == SettleIds(jobs, {id}, c)
  {
  }

  lemma FoundPending(jobs: seq<CognitionJob>, job: CognitionJob)
    requires Legal(jobs) && job in jobs && job.status.Pending?
    ensures FindJob(jobs, job.jobId) == Some(job) && job.version == 1
  {
    FindUnique(jobs, job.jobId);
    var i :| 0 <= i < |jobs| && jobs[i] == job;
  }

  lemma ChangedIsFound(jobs: seq<CognitionJob>, id: string, c: Change)
    requires DistinctJobs(jobs) && FindJob(jobs, id).Some?
    ensures FindJob(SettleIds(jobs, {id}, c), id) == Some(Changed(FindJob(jobs, id).value, c))
  {
    var n := SettleIds(jobs, {id}, c);
    assert forall i | 0 <= i < |n| :: n[i].jobId == jobs[i].jobId;
    FindUnique(jobs, id);
    FindUnique(n, id);
    var i :| 0 <= i < |jobs| && jobs[i] == FindJob(jobs, id).value;
    assert n[i].jobId == id;
  }

  lemma SettleStepFinds(jobs: seq<CognitionJob>, ids: set<string>, job: CognitionJob, c: Change)
    requires DistinctJobs(jobs) && job in jobs && job.jobId !in ids
    ensures FindJob(SettleIds(jobs, ids, c), job.jobId) == Some(job)
  {
    hide SettleIds, FindJob;
    var sofar := SettleIds(jobs, ids, c);
    assert DistinctJobs(sofar) by {
      assert forall i | 0 <= i < |sofar| :: sofar[i].jobId == jobs[i].jobId;
    }
    var k :| 0 <= k < |jobs| && jobs[k] == job;
    assert sofar[k] == job;
    FindUnique(sofar, job.jobId);
  }

  /** One more settled job, in a list where some are settled already. */
  lemma SettleStep(jobs: seq<CognitionJob>, ids: set<string>, job: CognitionJob, c: Change)
    requires Legal(jobs) && job in jobs && job.status.Pending? && job.jobId !in ids
    ensures var sofar := SettleIds(jobs, ids, c);
            && FindJob(sofar, job.jobId) == Some(job)
            && ReplaceJob(sofar, job.jobId, c) == SettleIds(jobs, ids + {job.jobId}, c)
  {
    hide SettleIds, ReplaceJob, FindJob, DistinctJobs, VersionedJobs, Changed;
    SettleStepFinds(jobs, ids, job, c);
    var r, n := ReplaceJob(SettleIds(jobs, ids, c), job.jobId, c), SettleIds(jobs, ids + {job.jobId}, c);
    forall i | 0 <= i < |jobs| ensures r[i] == n[i] {
      SettledId(jobs, ids, c, i);
    }
  }

  lemma SettledId(jobs: seq<CognitionJob>, ids: set<string>, c: Change, i: nat)
    requires i < |jobs|
    ensures SettleIds(jobs, ids, c)[i].jobId == jobs[i].jobId
  {
  }

  /** Settling a pending job by expiry or withdrawal is accepted and replaces it. */
  lemma SettlingIsAccepted(jobs: seq<CognitionJob>, job: CognitionJob, at: real, reason: string)
    requires FindJob(jobs, job.jobId) == Some(job) && job.status.Pending? && job.version == 1
    ensures NextJobs(jobs, ManagedEvent(0, at, CognitionExpired(job.jobId, reason)))
         == Ok(ReplaceJob(jobs, job.jobId, Change(2, Overdue, None, OrElse(reason, "expired"))))
    ensures NextJobs(jobs, ManagedEvent(0, at, CognitionCancelled(job.jobId, reason)))
         == Ok(ReplaceJob(jobs, job.jobId, Cancelling(reason)))
  {
    hide FindJob, ReplaceJob;
  }

  lemma ResultIsAccepted(jobs: seq<CognitionJob>, job: CognitionJob, at: real, result: Json, evidence: Fields)
    requires FindJob(jobs, job.jobId) == Some(job) && job.status.Pending? && job.version == 1
    ensures NextJobs(jobs, ManagedEvent(0, at, CognitionCompleted(job.jobId, 2, result, evidence)))
         == Ok(ReplaceJob(jobs, job.jobId, Change(2, Completed, Some((result, evidence)), None)))
  {
    hide FindJob, ReplaceJob;
  }

  lemma LateIs()
    ensures LATE == Change(2, Overdue, None, OrElse("result arrived after deadline", "expired"))
  {
  }

  lemma CompletesKeepsLegal(m: Measure, jobs: seq<CognitionJob>, a: Reply, clock: real)
    requires Legal(jobs)
    ensures Legal(Completes(m, jobs, a, clock).0)
  {
    hide Legal, Completes, PendingJobs, OnePerKey;
    CompletesKeeps(m, jobs, a, clock);
  }

  lemma DueListStep(pending: seq<CognitionJob>, i: nat, now: real)
    requires i < |pending|
    ensures DueList(pending[..i + 1], now)
         == DueList(pending[..i], now) + if Due(pending[i], now) then [pending[i].jobId] else []
  {
    assert pending[..i + 1][..i] == pending[..i];
  }

  lemma ElapsedIs()
    ensures ELAPSED == Change(2, Overdue, None, OrElse("cognition deadline elapsed", "expired"))
  {
  }

  class CognitionBroker {
    const recorder: Recorder
    const measure: Measure

    constructor (recorder: Recorder, measure: Measure)
      ensures this.recorder == recorder && this.measure == measure
    {
      this.recorder, this.measure := recorder, measure;
    }

    /** What this process last saw may be old, but not its job list: only the broker changes that. */
    ghost predicate Valid()
      reads this, recorder
    {
      recorder.state.cognition == recorder.journal.cognition && Legal(recorder.journal.cognition)
    }

    method Request(a: Ask, jobId: string, now: real, others: Others) returns (r: Answer<string>)
      requires Valid()
      modifies recorder
      ensures (recorder.journal.cognition, r) == Requested(measure, old(recorder.journal.cognition), a, jobId, now)
      ensures Valid()
    {
      hide FindJob, ReplaceJob, DistinctJobs, VersionedJobs, PendingJobs, Refuses, Twin;
      RequestKeepsLegal(measure, recorder.journal.cognition, a, jobId, now);
      var refusal := Refuses(measure, a);
      if refusal.Some? { return Refused(refusal.value); }
      if a.Deduped() {
        var twin := Twin(recorder.state.cognition, a.dedupeKey.value);
        if twin.Some? { return Given(twin.value); }
      }
      if |PendingJobs(recorder.state.cognition)| >= MAX_PENDING { return Refused(TooManyPending); }
      var failure := recorder.Emit(RequestEvent(a, jobId, now), now, others);
      if failure.Some? { return Refused(Reduced(failure.value)); }
      return Given(jobId);
    }

    method Complete(a: Reply, clock: real, at: real, others: Others) returns (r: Answer<CognitionJob>)
      requires Valid()
      modifies recorder
      ensures (recorder.journal.cognition, r) == Completes(measure, old(recorder.journal.cognition), a, clock)
      ensures Valid()
    {
      hide FindJob, ReplaceJob, SettleIds, DistinctJobs, VersionedJobs, NextJobs, OrElse, Within;
      ghost var jobs := recorder.journal.cognition;
      CompletesKeepsLegal(measure, jobs, a, clock);
      var found := recorder.state.Job(a.jobId);
      if found.None? { return Refused(UnknownJob); }
      var job := found.value;
      if !job.status.Pending? { return Refused(AlreadySettled); }
      if job.version != a.expectedVersion { return Refused(VersionMoved); }
      FoundPending(jobs, job);
      if job.deadlineAt.Some? && clock > job.deadlineAt.value {
        ReplaceIsSettle(jobs, a.jobId, LATE);
        SettlingIsAccepted(jobs, job, at, "result arrived after deadline");
        LateIs();
        var failure := recorder.Emit(CognitionExpired(a.jobId, "result arrived after deadline"), at, others);
        assert failure.None?;
        return Refused(TooLate);
      }
      if !Within(measure, a.result, MAX_RESULT) || !Within(measure, Obj(a.evidence), MAX_EVIDENCE) {
        return Refused(TooLarge);
      }
      if !measure.conforms(a.result, job.outputSchema) { return Refused(BadResult); }
      ReplaceIsSettle(jobs, a.jobId, Change(2, Completed, Some((a.result, a.evidence)), None));
      ChangedIsFound(jobs, a.jobId, Change(2, Completed, Some((a.result, a.evidence)), None));
      ResultIsAccepted(jobs, job, at, a.result, a.evidence);
      var failure := recorder.Emit(CognitionCompleted(a.jobId, job.version + 1, a.result, a.evidence), at, others);
      assert failure.None?;
      var completed := recorder.state.Job(a.jobId);
      return Given(completed.value);
    }

    method ExpireDue(now: real, others: nat -> Others) returns (expired: seq<string>)
      requires Valid()
      modifies recorder
      ensures var jobs := old(recorder.journal.cognition);
              recorder.journal.cognition == SettleIds(jobs, DueIds(jobs, now), ELAPSED)
                && expired == DueList(PendingJobs(jobs), now)
      ensures Valid()
    {
      hide FindJob, ReplaceJob, SettleIds, DistinctJobs, VersionedJobs, PendingJobs, DueIds, DueList, NextJobs, OrElse;
      ghost var jobs := recorder.journal.cognition;
      var pending := PendingJobs(recorder.state.cognition);
      expired := [];
      DueArePending(jobs, now);
      SettlingKeeps(jobs, DueIds(jobs, now), ELAPSED);
      SettleNothing(jobs, ELAPSED);
      NothingIsDue(now);
      ElapsedIs();
      PendingIsDistinct(jobs);
      assert pending[..0] == [];
      for i := 0 to |pending|
        invariant recorder.state.cognition == recorder.journal.cognition
        invariant recorder.journal.cognition == SettleIds(jobs, DueIds(pending[..i], now), ELAPSED)
        invariant expired == DueList(pending[..i], now)
      {
        DueListStep(pending, i, now);
        DueIdsStep(pending, i, now);
        if pending[i].deadlineAt.Some? && now > pending[i].deadlineAt.value {
          DueIdsAreEarlier(pending, i, now);
          FoundPending(jobs, pending[i]);
          SettleStep(jobs, DueIds(pending[..i], now), pending[i], ELAPSED);
          SettlingIsAccepted(recorder.journal.cognition, pending[i], now, "cognition deadline elapsed");
          var failure := recorder.Emit(CognitionExpired(pending[i].jobId, "cognition deadline elapsed"), now,
                                       others(i));
          assert failure.None?;
          expired := expired + [pending[i].jobId];
        }
      }
      assert pending[..|pending|] == pending;
      DueOfPending(jobs, now);
    }

    method CancelPending(reason: string, at: real, others: nat -> Others)
      requires Valid()
      modifies recorder
      ensures var jobs := old(recorder.journal.cognition);
              recorder.journal.cognition == SettleIds(jobs, PendingIds(jobs), Cancelling(reason))
      ensures Valid()
    {
      hide FindJob, ReplaceJob, SettleIds, DistinctJobs, VersionedJobs, PendingJobs, PendingIds, NextJobs, OrElse,
           Cancelling;
      ghost var jobs := recorder.journal.cognition;
      var pending := PendingJobs(recorder.state.cognition);
      CancellingSettles(reason);
      SettlingKeeps(jobs, PendingIds(jobs), Cancelling(reason));
      SettleNothing(jobs, Cancelling(reason));
      NothingIsPending();
      PendingIsDistinct(jobs);
      assert pending[..0] == [];
      for i := 0 to |pending|
        invariant recorder.state.cognition == recorder.journal.cognition
        invariant recorder.journal.cognition == SettleIds(jobs, PendingIds(pending[..i]), Cancelling(reason))
      {
        PendingIdsStep(pending, i);
        PendingIdsAreEarlier(pending, i);
        FoundPending(jobs, pending[i]);
        CancellingSettles(reason);
        SettleStep(jobs, PendingIds(pending[..i]), pending[i], Cancelling(reason));
        SettlingIsAccepted(recorder.journal.cognition, pending[i], at, reason);
        var failure := recorder.Emit(CognitionCancelled(pending[i].jobId, reason), at, others(i));
        assert failure.None?;
      }
      assert pending[..|pending|] == pending;
      PendingOfPending(jobs);
    }
  }

  lemma NothingIsDue(now: real)
    ensures DueIds([], now) == {} && DueList([], now) == []
  {
  }

  lemma NothingIsPending()
    ensures PendingIds([]) == {}
  {
  }

  lemma PendingOfPending(jobs: seq<CognitionJob>)
    ensures PendingIds(PendingJobs(jobs)) == PendingIds(jobs)
  {
  }

  lemma CancellingSettles(reason: string)
    ensures Cancelling(reason).version == 2 && !Cancelling(reason).status.Pending?
  {
  }

  lemma DueIdsAreEarlier(pending: seq<CognitionJob>, i: nat, now: real)
    requires DistinctJobs(pending) && i < |pending|
    ensures pending[i].jobId !in DueIds(pending[..i], now)
  {
  }

  lemma PendingIdsAreEarlier(pending: seq<CognitionJob>, i: nat)
    requires DistinctJobs(pending) && i < |pending|
    ensures pending[i].jobId !in PendingIds(pending[..i])
  {
  }

  lemma SettleNothing(jobs: seq<CognitionJob>, c: Change)
    ensures SettleIds(jobs, {}, c) == jobs
  {
  }

  lemma DueIdsStep(pending: seq<CognitionJob>, i: nat, now: real)
    requires i < |pending|
    ensures DueIds(pending[..i + 1], now)
         == DueIds(pending[..i], now) + if Due(pending[i], now) then {pending[i].jobId} else {}
  {
    assert pending[..i + 1] == pending[..i] + [pending[i]];
  }

  lemma PendingIdsStep(pending: seq<CognitionJob>, i: nat)
    requires i < |pending| && pending[i].status.Pending?
    ensures PendingIds(pending[..i + 1]) == PendingIds(pending[..i]) + {pending[i].jobId}
  {
    assert pending[..i + 1] == pending[..i] + [pending[i]];
  }

  lemma DueOfPending(jobs: seq<CognitionJob>, now: real)
    ensures DueIds(PendingJobs(jobs), now) == DueIds(jobs, now)
  {
  }

  lemma {:induction false} PendingIsDistinct(jobs: seq<CognitionJob>)
    requires DistinctJobs(jobs)
    ensures DistinctJobs(PendingJobs(jobs))
  {
    if jobs != [] {
      var init := jobs[..|jobs| - 1];
      PendingIsDistinct(init);
      forall j | j in PendingJobs(init) ensures j.jobId != jobs[|jobs| - 1].jobId {
        var k :| 0 <= k < |init| && init[k] == j;
      }
    }
  }

  // ---- what a call means for the caller ----

  /** An accepted request either names a pending job that already has the dedupe key, and changes
      nothing, or appends one pending job that carries everything the caller asked for. */
  lemma RequestIsRecorded(m: Measure, jobs: seq<CognitionJob>, a: Ask, jobId: string, at: real)
    ensures var (n, r) := Requested(m, jobs, a, jobId, at);
            && (r.Refused? ==> n == jobs)
            && (r.Given? && n == jobs ==>
                  a.Deduped() && exists i :: 0 <= i < |jobs| && jobs[i].jobId == r.value && jobs[i].status.Pending?
                                              && Key(jobs[i]) == Some(Str(a.dedupeKey.value)))
            && (r.Given? && n != jobs ==>
                  && r.value == jobId && |n| == |jobs| + 1 && n[..|jobs|] == jobs
                  && (forall j | j in jobs :: j.jobId != jobId)
                  && var job := n[|jobs|];
                     && job.jobId == jobId && job.status.Pending? && job.version == 1 && job.result.Null?
                     && job.question == a.question && job.outputSchema == a.outputSchema
                        && job.resourceKeys == a.resourceKeys
                     && job.requestedAt == at
                     && (job.deadlineAt.Some? <==> a.deadlineSeconds.Some?)
                     && (job.deadlineAt.Some? ==> job.deadlineAt.value - at == a.deadlineSeconds.value)
                     && (forall k | k in a.context && k != "dedupe_key" ::
                           k in job.context && job.context[k] == a.context[k])
                     && (a.Deduped() ==> Key(job) == Some(Str(a.dedupeKey.value))))
  {
    hide Refuses, PendingJobs;
  }

  /** A result is accepted exactly for a pending job, at the version the caller saw, before its
      deadline, within the size limits and in the shape that was asked for; then the job is completed
      with that result and evidence and every other job stays as it was. */
  lemma CompletionIsRecorded(m: Measure, jobs: seq<CognitionJob>, a: Reply, clock: real)
    requires Legal(jobs)
    ensures var (n, r) := Completes(m, jobs, a, clock);
            && (r.Given? <==>
                  exists i :: 0 <= i < |jobs| && jobs[i].jobId == a.jobId && jobs[i].status.Pending?
                              && a.expectedVersion == 1
                              && !(jobs[i].deadlineAt.Some? && clock > jobs[i].deadlineAt.value)
                              && Within(m, a.result, MAX_RESULT) && Within(m, Obj(a.evidence), MAX_EVIDENCE)
                              && m.conforms(a.result, jobs[i].outputSchema))
            && (r.Given? ==>
                  && |n| == |jobs|
                  && (forall i | 0 <= i < |jobs| && jobs[i].jobId != a.jobId :: n[i] == jobs[i])
                  && (forall i | 0 <= i < |jobs| && jobs[i].jobId == a.jobId ::
                        n[i] == r.value && n[i].status.Completed? && n[i].version == 2 && n[i].result == a.result
                        && n[i].evidence == a.evidence && n[i].error.None? && n[i].question == jobs[i].question))
            && (r.Refused? && r.why != TooLate ==> n == jobs)
  {
    hide DistinctJobs, VersionedJobs, FindJob, Within;
    FindUnique(jobs, a.jobId);
    var job := FindJob(jobs, a.jobId);
    if job.Some? {
      var i :| 0 <= i < |jobs| && jobs[i] == job.value;
      assert jobs[i].jobId == a.jobId;
      if job.value.status.Pending? { FoundPending(jobs, job.value); }
    }
  }

  /** Expiry settles the due jobs and no others, and reports their ids. */
  lemma OnlyDueJobsExpire(jobs: seq<CognitionJob>, now: real)
    requires Legal(jobs)
    ensures var n := SettleIds(jobs, DueIds(jobs, now), ELAPSED);
            && (forall i | 0 <= i < |jobs| ::
                  if Due(jobs[i], now) then n[i].status.Overdue? && n[i].jobId == jobs[i].jobId else n[i] == jobs[i])
            && (forall id :: id in DueList(PendingJobs(jobs), now) <==> id in DueIds(jobs, now))
  {
    hide SettleIds;
    var n := SettleIds(jobs, DueIds(jobs, now), ELAPSED);
    forall i | 0 <= i < |jobs|
      ensures if Due(jobs[i], now) then n[i].status.Overdue? && n[i].jobId == jobs[i].jobId else n[i] == jobs[i]
    {
      if jobs[i].jobId in DueIds(jobs, now) {
        var j :| j in jobs && Due(j, now) && j.jobId == jobs[i].jobId;
        FoundPending(jobs, j);
        FindUnique(jobs, j.jobId);
        assert j == jobs[i];
      }
    }
    DueOfPending(jobs, now);
    forall id ensures id in DueList(PendingJobs(jobs), now) <==> id in DueIds(PendingJobs(jobs), now) {
      DueListHolds(PendingJobs(jobs), now, id);
    }
  }

  lemma {:induction false} DueListHolds(jobs: seq<CognitionJob>, now: real, id: string)
    ensures id in DueList(jobs, now) <==> id in DueIds(jobs, now)
  {
    if jobs != [] {
      var init, last := jobs[..|jobs| - 1], jobs[|jobs| - 1];
      DueListHolds(init, now, id);
      assert jobs == init + [last];
      assert jobs[..|init| + 1] == jobs && jobs[..|init|] == init;
      DueIdsStep(jobs, |init|, now);
    }
  }

  // ---- over whole runs ----

  datatype Call =
    | Asking(ask: Ask, jobId: string, at: real)
    | Replying(reply: Reply, clock: real)
    | Expiring(now: real)
    | Withdrawing(reason: string)

  function JobsAfter(m: Measure, jobs: seq<CognitionJob>, call: Call): seq<CognitionJob> {
    match call
    case Asking(a, id, at) => Requested(m, jobs, a, id, at).0
    case Replying(reply, clock) => Completes(m, jobs, reply, clock).0
    case Expiring(now) => SettleIds(jobs, DueIds(jobs, now), ELAPSED)
    case Withdrawing(reason) => SettleIds(jobs, PendingIds(jobs), Cancelling(reason))
  }

  /** The job list after any calls on a new run; other writers may append anything in between. */
  function Jobs(m: Measure, calls: seq<Call>): seq<CognitionJob> {
    if calls == [] then [] else JobsAfter(m, Jobs(m, calls[..|calls| - 1]), calls[|calls| - 1])
  }

  /** At most one pending job for each dedupe key. */
  ghost predicate OnePerKey(jobs: seq<CognitionJob>) {
    forall i, j | 0 <= i < j < |jobs| && jobs[i].status.Pending? && jobs[j].status.Pending? && Key(jobs[i]).Some? ::
      Key(jobs[i]) != Key(jobs[j])
  }

  /** The caller wrote a dedupe key of its own into the context, without asking for deduplication,
      and a pending job already has it. */
  ghost predicate Clashes(jobs: seq<CognitionJob>, a: Ask) {
    && !a.Deduped() && "dedupe_key" in a.context
    && exists i :: 0 <= i < |jobs| && jobs[i].status.Pending? && Key(jobs[i]) == Some(a.context["dedupe_key"])
  }

  lemma SettlingKeeps(jobs: seq<CognitionJob>, ids: set<string>, c: Change)
    requires Legal(jobs) && c.version == 2 && !c.status.Pending? && ids <= PendingIds(jobs)
    ensures Legal(SettleIds(jobs, ids, c))
  {
    hide SettleIds;
    var n := SettleIds(jobs, ids, c);
    assert DistinctJobs(n) by {
      assert forall i | 0 <= i < |n| :: n[i].jobId == jobs[i].jobId;
    }
  }

  lemma SettlingKeepsKeys(jobs: seq<CognitionJob>, ids: set<string>, c: Change)
    requires OnePerKey(jobs) && !c.status.Pending?
    ensures OnePerKey(SettleIds(jobs, ids, c))
  {
    hide SettleIds;
    var n := SettleIds(jobs, ids, c);
    assert forall i | 0 <= i < |n| && n[i].status.Pending? :: n[i] == jobs[i];
  }

  lemma SettleInit(jobs: seq<CognitionJob>, ids: set<string>, c: Change)
    requires jobs != []
    ensures var n := SettleIds(jobs, ids, c);
            && n[..|n| - 1] == SettleIds(jobs[..|jobs| - 1], ids, c)
            && n[|n| - 1] in {jobs[|jobs| - 1], Changed(jobs[|jobs| - 1], c)}
  {
    hide SettleIds, Changed;
  }

  lemma PendingLast(jobs: seq<CognitionJob>)
    requires jobs != []
    ensures |PendingJobs(jobs)| == |PendingJobs(jobs[..|jobs| - 1])| + if jobs[|jobs| - 1].status.Pending? then 1 else 0
  {
  }

  lemma {:induction false} SettlingNeverAddsPending(jobs: seq<CognitionJob>, ids: set<string>, c: Change)
    requires !c.status.Pending?
    ensures |PendingJobs(SettleIds(jobs, ids, c))| <= |PendingJobs(jobs)|
  {
    hide SettleIds, PendingJobs;
    if jobs == [] {
      SettleNothing(jobs, c);
      assert SettleIds(jobs, ids, c) == jobs;
    } else {
      SettlingNeverAddsPending(jobs[..|jobs| - 1], ids, c);
      SettleInit(jobs, ids, c);
      PendingLast(jobs);
      PendingLast(SettleIds(jobs, ids, c));
    }
  }

  lemma RequestKeepsLegal(m: Measure, jobs: seq<CognitionJob>, a: Ask, jobId: string, at: real)
    requires Legal(jobs)
    ensures Legal(Requested(m, jobs, a, jobId, at).0)
  {
    hide CountJobs, FindJob, Twin, Refuses, DistinctJobs, VersionedJobs, PendingJobs;
    var n := Requested(m, jobs, a, jobId, at).0;
    if n != jobs {
      assert n == jobs + [n[|jobs|]];
      AppendKeeps(jobs, n[|jobs|]);
    }
  }

  lemma RequestKeeps(m: Measure, jobs: seq<CognitionJob>, a: Ask, jobId: string, at: real)
    requires Legal(jobs) && |PendingJobs(jobs)| <= MAX_PENDING
    ensures var n := Requested(m, jobs, a, jobId, at).0; Legal(n) && |PendingJobs(n)| <= MAX_PENDING
  {
    hide CountJobs, FindJob, Twin, Refuses, DistinctJobs, VersionedJobs;
    var n := Requested(m, jobs, a, jobId, at).0;
    if n != jobs {
      assert n == jobs + [n[|jobs|]];
      AppendKeeps(jobs, n[|jobs|]);
    }
  }

  lemma CompletesKeeps(m: Measure, jobs: seq<CognitionJob>, a: Reply, clock: real)
    requires Legal(jobs)
    ensures var n := Completes(m, jobs, a, clock).0; Legal(n) && |PendingJobs(n)| <= |PendingJobs(jobs)|
    ensures OnePerKey(jobs) ==> OnePerKey(Completes(m, jobs, a, clock).0)
  {
    hide SettleIds, PendingJobs, DistinctJobs, VersionedJobs, OnePerKey;
    var job := FindJob(jobs, a.jobId);
    var done := Change(2, Completed, Some((a.result, a.evidence)), None);
    if job.Some? && job.value.status.Pending? {
      assert a.jobId in PendingIds(jobs);
      SettlingKeeps(jobs, {a.jobId}, LATE);
      SettlingKeeps(jobs, {a.jobId}, done);
      SettlingNeverAddsPending(jobs, {a.jobId}, LATE);
      SettlingNeverAddsPending(jobs, {a.jobId}, done);
      if OnePerKey(jobs) {
        SettlingKeepsKeys(jobs, {a.jobId}, LATE);
        SettlingKeepsKeys(jobs, {a.jobId}, done);
      }
    }
  }

  /** After any calls: job ids are distinct, a job is pending exactly at version 1 and settled
      exactly at version 2, and at most eight jobs are pending. */
  lemma {:induction false} BrokerKeepsTheLimits(m: Measure, calls: seq<Call>)
    ensures Legal(Jobs(m, calls)) && |PendingJobs(Jobs(m, calls))| <= MAX_PENDING
  {
    hide SettleIds, PendingJobs, Legal, Requested, Completes, DueIds;
    if calls == [] {
      assert Legal([]) && PendingJobs([]) == [] by { EmptyIsLegal(); }
    } else {
      var jobs := Jobs(m, calls[..|calls| - 1]);
      BrokerKeepsTheLimits(m, calls[..|calls| - 1]);
      match calls[|calls| - 1]
      case Asking(a, id, at) => RequestKeeps(m, jobs, a, id, at);
      case Replying(reply, clock) => CompletesKeeps(m, jobs, reply, clock);
      case Expiring(now) =>
        DueArePending(jobs, now);
        SettlingKeeps(jobs, DueIds(jobs, now), ELAPSED);
        SettlingNeverAddsPending(jobs, DueIds(jobs, now), ELAPSED);
      case Withdrawing(reason) =>
        SettlingKeeps(jobs, PendingIds(jobs), Cancelling(reason));
        SettlingNeverAddsPending(jobs, PendingIds(jobs), Cancelling(reason));
    }
  }

  lemma EmptyIsLegal()
    ensures Legal([]) && PendingJobs([]) == [] && OnePerKey([])
  {
  }

  lemma DueArePending(jobs: seq<CognitionJob>, now: real)
    ensures DueIds(jobs, now) <= PendingIds(jobs)
  {
  }

  /** A request is turned away by the reducer only for a job id that is taken. */
  lemma OnlyCollisionsAreRejected(m: Measure, jobs: seq<CognitionJob>, a: Ask, jobId: string, at: real)
    ensures var r := Requested(m, jobs, a, jobId, at).1;
            r.Refused? && r.why.Reduced? ==> r.why.reason == DuplicateJob && FindJob(jobs, jobId).Some?
    ensures var r := Requested(m, jobs, a, jobId, at);
            FindJob(jobs, jobId).None? && r.0 == jobs ==>
              r.1 == Refused(TooManyPending) || (Refuses(m, a).Some? && r.1 == Refused(Refuses(m, a).value))
              || (a.Deduped() && r.1.Given? && Twin(jobs, a.dedupeKey.value) == Some(r.1.value))
  {
  }

  /** A request leaves at most one pending job for each key exactly when its caller did not write a key
      that is already pending into the context, or one of the checks before the event turns it away. */
  lemma RequestKeepsOnePerKey(m: Measure, jobs: seq<CognitionJob>, a: Ask, jobId: string, at: real)
    requires OnePerKey(jobs)
    ensures var n := Requested(m, jobs, a, jobId, at).0;
            OnePerKey(n) <==> !Clashes(jobs, a) || Refuses(m, a).Some? || |PendingJobs(jobs)| >= MAX_PENDING
                              || FindJob(jobs, jobId).Some?
  {
    hide FindJob, Refuses, PendingJobs;
    var n := Requested(m, jobs, a, jobId, at).0;
    if Clashes(jobs, a) { assert !a.Deduped(); }
    if n != jobs {
      var job := n[|jobs|];
      assert n == jobs + [job];
      assert Key(job) == if a.Deduped() then Some(Str(a.dedupeKey.value))
                         else if "dedupe_key" in a.context then Some(a.context["dedupe_key"]) else None;
      assert forall i | 0 <= i < |jobs| :: n[i] == jobs[i];
      if Clashes(jobs, a) {
        var i :| 0 <= i < |jobs| && jobs[i].status.Pending? && Key(jobs[i]) == Some(a.context["dedupe_key"]);
        assert Key(n[i]) == Key(n[|jobs|]);
      }
    }
  }

  /** Callers that leave `dedupe_key` out of the context never see two pending jobs for one key. */
  lemma {:induction false} OnePendingJobPerKey(m: Measure, calls: seq<Call>)
    requires forall i | 0 <= i < |calls| && calls[i].Asking? :: "dedupe_key" !in calls[i].ask.context
    ensures OnePerKey(Jobs(m, calls))
  {
    hide SettleIds, OnePerKey, Legal, Requested, Completes;
    if calls == [] {
      EmptyIsLegal();
    } else {
      var before := calls[..|calls| - 1];
      var jobs := Jobs(m, before);
      assert forall i | 0 <= i < |before| :: before[i] == calls[i];
      OnePendingJobPerKey(m, before);
      BrokerKeepsTheLimits(m, before);
      match calls[|calls| - 1]
      case Asking(a, id, at) => RequestKeepsOnePerKey(m, jobs, a, id, at);
      case Replying(reply, clock) => CompletesKeeps(m, jobs, reply, clock);
      case Expiring(now) => SettlingKeepsKeys(jobs, DueIds(jobs, now), ELAPSED);
      case Withdrawing(reason) => SettlingKeepsKeys(jobs, PendingIds(jobs), Cancelling(reason));
    }
  }

  lemma Accepted(m: Measure, jobs: seq<CognitionJob>, a: Ask, jobId: string, at: real)
    requires Refuses(m, a).None? && !a.Deduped() && |jobs| < MAX_PENDING && FindJob(jobs, jobId).None?
    ensures var n := Requested(m, jobs, a, jobId, at).0;
            |n| == |jobs| + 1 && n[..|jobs|] == jobs && n[|jobs|].status.Pending? && n[|jobs|].context == a.context
            && n[|jobs|].jobId == jobId
  {
    hide Refuses, FindJob, PendingJobs;
    PendingIsShort(jobs);
  }

  lemma {:induction false} PendingIsShort(jobs: seq<CognitionJob>)
    ensures |PendingJobs(jobs)| <= |jobs|
  {
    hide PendingJobs;
    if jobs != [] {
      PendingIsShort(jobs[..|jobs| - 1]);
      PendingLast(jobs);
    } else {
      assert PendingJobs([]) == [] by { EmptyIsLegal(); }
    }
  }

  /** A caller that does write a key into the context, twice, gets two pending jobs for it. */
  lemma CallersCanDuplicateKeys(m: Measure, key: Json)
    requires var a := Ask("?", map["dedupe_key" := key], map[], [], None, None); Refuses(m, a).None?
    ensures var a := Ask("?", map["dedupe_key" := key], map[], [], None, None);
            !OnePerKey(Jobs(m, [Asking(a, "x", 0.0), Asking(a, "y", 0.0)]))
  {
    hide Refuses, Requested, PendingJobs;
    var a := Ask("?", map["dedupe_key" := key], map[], [], None, None);
    var first := [Asking(a, "x", 0.0)];
    var both := [Asking(a, "x", 0.0), Asking(a, "y", 0.0)];
    assert both[..1] == first && first[..0] == [];
    assert Jobs(m, []) == [];
    Accepted(m, [], a, "x", 0.0);
    var jobs := Jobs(m, first);
    assert jobs == Requested(m, [], a, "x", 0.0).0;
    assert FindJob(jobs, "y").None? by { assert jobs[0].jobId == "x"; }
    Accepted(m, jobs, a, "y", 0.0);
    var n := Jobs(m, both);
    assert n == Requested(m, jobs, a, "y", 0.0).0;
    assert n[0] == jobs[0] && Key(n[0]) == Key(n[1]) == Some(key);
  }

  // ---- each job is resolved at most once ----

  predicate Resolves(b: Body, id: string) {
    (b.CognitionCompleted? && b.completedJob == id) || (b.CognitionCancelled? && b.cancelledJob == id)
    || (b.CognitionExpired? && b.expiredJob == id)
  }

  function Resolutions(events: seq<ManagedEvent>, id: string): nat {
    if events == [] then 0
    else Resolutions(events[..|events| - 1], id) + if Resolves(events[|events| - 1].body, id) then 1 else 0
  }

  function Settled(jobs: seq<CognitionJob>, id: string): nat {
    if FindJob(jobs, id).Some? && !FindJob(jobs, id).value.status.Pending? then 1 else 0
  }

  lemma SettledByEvent(jobs: seq<CognitionJob>, e: ManagedEvent, id: string)
    requires DistinctJobs(jobs) && VersionedJobs(jobs) && NextJobs(jobs, e).Ok?
    ensures Settled(NextJobs(jobs, e).value, id) == Settled(jobs, id) + if Resolves(e.body, id) then 1 else 0
  {
    hide FindJob, ReplaceJob, DistinctJobs, VersionedJobs;
    if Settlement(e).Some? {
      var (settled, c) := Settlement(e).value;
      SettlementOf(jobs, e);
      FoundAfterReplace(jobs, settled, c, id);
    } else if e.body.CognitionRequested? {
      var n := NextJobs(jobs, e).value;
      assert n == jobs + [n[|jobs|]];
      FoundAfterAppend(jobs, n[|jobs|], id);
    }
  }

  lemma {:induction false} FoundAfterAppend(jobs: seq<CognitionJob>, job: CognitionJob, id: string)
    ensures FindJob(jobs + [job], id)
         == if FindJob(jobs, id).Some? then FindJob(jobs, id) else if job.jobId == id then Some(job) else None
  {
    var n := jobs + [job];
    if jobs != [] {
      assert n[1..] == jobs[1..] + [job];
      FoundAfterAppend(jobs[1..], job, id);
    } else {
      assert n[1..] == [];
    }
  }

  lemma FoundAfterReplace(jobs: seq<CognitionJob>, settled: string, c: Change, id: string)
    requires DistinctJobs(jobs) && FindJob(jobs, settled).Some?
    ensures FindJob(ReplaceJob(jobs, settled, c), id)
         == if id == settled then Some(Changed(FindJob(jobs, id).value, c)) else FindJob(jobs, id)
  {
    hide FindJob, ReplaceJob;
    var n := ReplaceJob(jobs, settled, c);
    assert DistinctJobs(n) by {
      assert forall i | 0 <= i < |n| :: n[i].jobId == jobs[i].jobId;
    }
    FindUnique(jobs, id);
    FindUnique(n, id);
    if FindJob(jobs, id).Some? {
      var i :| 0 <= i < |jobs| && jobs[i] == FindJob(jobs, id).value;
      assert n[i].jobId == id;
    }
  }

  /** In every journal that replays, a job is resolved once if it is settled and never if it is not. */
  lemma {:induction false} JobsAreResolvedOnce(events: seq<ManagedEvent>, id: string)
    requires Replay(events).Ok?
    ensures Resolutions(events, id) == Settled(Replay(events).value.cognition, id) <= 1
  {
    hide Apply, NextJobs, Settled, Resolves, Lawful, DistinctJobs, VersionedJobs;
    var before, e := events[..|events| - 1], events[|events| - 1];
    if before == [] {
      FoldAppend([], e);
      assert events == [] + [e] && Resolutions([], id) == 0;
      FirstEvent(e, id);
    } else {
      FoldPrefix(events, |before|);
      JobsAreResolvedOnce(before, id);
      LawfulJobs(before);
      assert events == before + [e];
      FoldAppend(before, e);
      JobsOfApply(Replay(before).value, e);
      SettledByEvent(Replay(before).value.cognition, e, id);
    }
    AtMostOne(Replay(events).value.cognition, id);
  }

  lemma AtMostOne(jobs: seq<CognitionJob>, id: string)
    ensures Settled(jobs, id) <= 1
  {
  }

  lemma LawfulJobs(events: seq<ManagedEvent>)
    requires Replay(events).Ok?
    ensures DistinctJobs(Replay(events).value.cognition) && VersionedJobs(Replay(events).value.cognition)
  {
    hide Replay, DistinctJobs, VersionedJobs, Leased, Counted, Conserved;
    ReplayIsLawful(events);
  }

  lemma FirstEvent(e: ManagedEvent, id: string)
    requires Apply(None, e).Ok?
    ensures !Resolves(e.body, id) && Settled(Apply(None, e).value.cognition, id) == 0
  {
  }
}
