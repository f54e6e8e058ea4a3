/** When the cognition broker says yes, and what it answers otherwise (host/runtime.py:68-205). */
module HostAnswers {
  import opened HostAcceptance
  import opened HostBroker
  import opened HostLifecycle
  import opened HostReduce
  import opened JsonModel
  import opened Logs
  import HostJournal

  // ---- requests ----

  /** The context that is measured and recorded: the caller's, with a dedupe key that is not empty. */
  ghost predicate IsContext(a: Ask, context: Fields) {
    forall k: string :: Get(context, k)
      == if k == "dedupe_key" && a.dedupeKey.Some? && a.dedupeKey.value != "" then Some(Str(a.dedupeKey.value))
         else Get(a.context, k)
  }

  function Get(fields: Fields, k: string): Option<Json> { if k in fields then Some(fields[k]) else None }

  ghost predicate Fits(m: Measure, fields: Fields, maximum: nat) {
    m.size(Obj(fields)).Some? && m.size(Obj(fields)).value <= maximum
  }

  /** A pending job already has the key that was asked for. */
  ghost predicate HasTwin(jobs: seq<CognitionJob>, a: Ask) {
    && a.dedupeKey.Some? && a.dedupeKey.value != ""
    && exists i :: 0 <= i < |jobs| && jobs[i].status == Pending
                   && Get(jobs[i].context, "dedupe_key") == Some(Str(a.dedupeKey.value))
  }

  /** The test that stands behind each refusal of a request. */
  ghost predicate Fails(m: Measure, jobs: seq<CognitionJob>, a: Ask, jobId: string, why: Refusal) {
    match why
    case EmptyQuestion => forall i | 0 <= i < |a.question| :: HostJournal.White(a.question[i])
    case LongQuestion => |a.question| > 4000
    case BadDeadline => a.deadlineSeconds.Some? && (a.deadlineSeconds.value < 1.0 || a.deadlineSeconds.value > 3600.0)
    case LongDedupeKey => a.dedupeKey.Some? && |a.dedupeKey.value| > 200
    case BadResourceKeys => |a.resourceKeys| > 16 || exists key | key in a.resourceKeys :: key == "" || |key| > 200
    case TooLarge =>
      || (forall context | IsContext(a, context) :: !Fits(m, context, 32_000))
      || !Fits(m, a.outputSchema, 16_000)
    case TooManyPending => !HasTwin(jobs, a) && CountJobs(jobs, Pending) >= 8
    case Reduced(reason) => reason == DuplicateJob && !HasTwin(jobs, a) && !Absent(jobs, jobId)
    case _ => false
  }

  /** The order of the tests. */
  function Rank(why: Refusal): nat {
    match why
    case EmptyQuestion => 0
    case LongQuestion => 1
    case BadDeadline => 2
    case LongDedupeKey => 3
    case BadResourceKeys => 4
    case TooLarge => 5
    case TooManyPending => 6
    case _ => 7
  }

  ghost predicate FirstToFail(m: Measure, jobs: seq<CognitionJob>, a: Ask, jobId: string, why: Refusal) {
    Fails(m, jobs, a, jobId, why) && forall other | Rank(other) < Rank(why) :: !Fails(m, jobs, a, jobId, other)
  }

  lemma ContextIs(a: Ask)
    ensures IsContext(a, a.JobContext())
    ensures forall context | IsContext(a, context) :: context == a.JobContext()
  {
    var recorded := a.JobContext();
    forall context | IsContext(a, context) ensures context == recorded {
      forall k: string ensures k in context <==> k in recorded
                       ensures k in context ==> context[k] == recorded[k]
      {
        assert Get(context, k) == Get(recorded, k);
      }
    }
  }

  /** The checks that need no state. */
  lemma StatelessChecks(m: Measure, jobs: seq<CognitionJob>, a: Ask, jobId: string)
    ensures forall why | Rank(why) <= 5 :: Refuses(m, a) == Some(why) <==> FirstToFail(m, jobs, a, jobId, why)
    ensures Refuses(m, a).Some? ==> Rank(Refuses(m, a).value) <= 5
  {
    hide HasTwin, Absent, IsContext, CountJobs;
    ContextIs(a);
    KeysInRange(a.resourceKeys);
    assert Within(m, Obj(a.JobContext()), MAX_CONTEXT) <==> Fits(m, a.JobContext(), 32_000);
    assert Within(m, Obj(a.outputSchema), MAX_SCHEMA) <==> Fits(m, a.outputSchema, 16_000);
    assert Fails(m, jobs, a, jobId, TooLarge)
      <==> !Fits(m, a.JobContext(), 32_000) || !Fits(m, a.outputSchema, 16_000);
  }

  lemma KeysInRange(keys: seq<string>)
    ensures (exists key | key in keys :: key == "" || |key| > 200)
       <==> (exists k | 0 <= k < |keys| :: |keys[k]| == 0 || |keys[k]| > 200)
  {
    if k :| 0 <= k < |keys| && (|keys[k]| == 0 || |keys[k]| > 200) { assert keys[k] in keys; }
  }

  lemma {:induction false} PendingAreCounted(jobs: seq<CognitionJob>)
    ensures |PendingJobs(jobs)| == CountJobs(jobs, Pending)
  {
    if jobs != [] { PendingAreCounted(jobs[..|jobs| - 1]); }
  }

  lemma TwinIs(jobs: seq<CognitionJob>, a: Ask)
    ensures HasTwin(jobs, a) <==> a.Deduped() && Twin(jobs, a.dedupeKey.value).Some?
  {
  }

  /** A request is granted exactly when no test fails; otherwise the first test that fails is named. A
      failed request is never answered in another way. */
  lemma RequestIsAnswered(m: Measure, jobs: seq<CognitionJob>, a: Ask, jobId: string, at: real)
    ensures var r := Requested(m, jobs, a, jobId, at).1;
            && (r.Given? <==> forall why :: !Fails(m, jobs, a, jobId, why))
            && (forall why :: r == Refused(why) <==> FirstToFail(m, jobs, a, jobId, why))
  {
    hide Refuses, HasTwin, Twin, PendingJobs, CountJobs, FindJob, Absent, IsContext, Fits;
    StatelessChecks(m, jobs, a, jobId);
    TwinIs(jobs, a);
    PendingAreCounted(jobs);
    FindIsFirst(jobs, jobId);
    StatefulChecks(m, jobs, a, jobId, at);
  }

  lemma StatefulChecks(m: Measure, jobs: seq<CognitionJob>, a: Ask, jobId: string, at: real)
    requires forall why | Rank(why) <= 5 :: Refuses(m, a) == Some(why) <==> FirstToFail(m, jobs, a, jobId, why)
    requires Refuses(m, a).Some? ==> Rank(Refuses(m, a).value) <= 5
    requires HasTwin(jobs, a) <==> a.Deduped() && Twin(jobs, a.dedupeKey.value).Some?
    requires |PendingJobs(jobs)| == CountJobs(jobs, Pending)
    requires FindJob(jobs, jobId).None? <==> Absent(jobs, jobId)
    ensures var r := Requested(m, jobs, a, jobId, at).1;
            && (r.Given? <==> forall why :: !Fails(m, jobs, a, jobId, why))
            && (forall why :: r == Refused(why) <==> FirstToFail(m, jobs, a, jobId, why))
  {
    hide Refuses, HasTwin, Twin, PendingJobs, CountJobs, FindJob, Absent, IsContext, Fits;
    var r := Requested(m, jobs, a, jobId, at).1;
    if Refuses(m, a).Some? {
      assert FirstToFail(m, jobs, a, jobId, Refuses(m, a).value);
    } else {
      forall why | Rank(why) <= 5 ensures !Fails(m, jobs, a, jobId, why) {
        NoneFails(m, jobs, a, jobId, why);
      }
      assert r.Given? || r == Refused(TooManyPending) || r == Refused(Reduced(DuplicateJob));
      assert r == Refused(TooManyPending) <==> Fails(m, jobs, a, jobId, TooManyPending);
      assert r == Refused(Reduced(DuplicateJob)) ==> Fails(m, jobs, a, jobId, Reduced(DuplicateJob));
      assert r.Given? ==> HasTwin(jobs, a) || Absent(jobs, jobId);
    }
  }

  /** If some test up to a rank fails, one of them fails first. */
  lemma {:induction false} NoneFails(m: Measure, jobs: seq<CognitionJob>, a: Ask, jobId: string, why: Refusal)
    requires forall other | Rank(other) <= 5 :: !FirstToFail(m, jobs, a, jobId, other)
    requires Rank(why) <= 5
    ensures !Fails(m, jobs, a, jobId, why)
    decreases Rank(why)
  {
    hide Fails;
    if Fails(m, jobs, a, jobId, why) {
      forall other | Rank(other) < Rank(why) ensures !Fails(m, jobs, a, jobId, other) {
        NoneFails(m, jobs, a, jobId, other);
      }
    }
  }

  ghost predicate IsTwin(jobs: seq<CognitionJob>, a: Ask, i: nat) {
    && i < |jobs| && a.dedupeKey.Some? && jobs[i].status == Pending
    && Get(jobs[i].context, "dedupe_key") == Some(Str(a.dedupeKey.value))
  }

  lemma {:induction false} TwinIsFirst(jobs: seq<CognitionJob>, a: Ask)
    requires a.dedupeKey.Some? && Twin(jobs, a.dedupeKey.value).Some?
    ensures exists i: nat :: IsTwin(jobs, a, i) && jobs[i].jobId == Twin(jobs, a.dedupeKey.value).value
                             && forall j: nat | j < i :: !IsTwin(jobs, a, j)
  {
    var rest := jobs[1..];
    if Key(jobs[0]) == Some(Str(a.dedupeKey.value)) && jobs[0].status.Pending? {
      assert IsTwin(jobs, a, 0);
    } else {
      TwinIsFirst(rest, a);
      var i: nat :| IsTwin(rest, a, i) && rest[i].jobId == Twin(rest, a.dedupeKey.value).value
                    && forall j: nat | j < i :: !IsTwin(rest, a, j);
      hide Twin;
      assert forall j: nat | j < |rest| :: rest[j] == jobs[j + 1];
      forall j: nat | j < i + 1 ensures !IsTwin(jobs, a, j) {
        if j > 0 { assert !IsTwin(rest, a, j - 1); }
      }
      assert IsTwin(jobs, a, i + 1);
    }
  }

  /** What a granted request gives: the id of the first twin and nothing new, or one new job that says
      what was asked and nothing else. */
  lemma GrantedRequestIs(m: Measure, jobs: seq<CognitionJob>, a: Ask, jobId: string, at: real)
    requires Requested(m, jobs, a, jobId, at).1.Given?
    ensures var (n, r) := Requested(m, jobs, a, jobId, at);
            if HasTwin(jobs, a) then
              && n == jobs
              && exists i: nat :: IsTwin(jobs, a, i) && jobs[i].jobId == r.value
                                  && forall j: nat | j < i :: !IsTwin(jobs, a, j)
            else
              && r.value == jobId && |n| == |jobs| + 1 && n[..|jobs|] == jobs
              && var job := n[|jobs|];
                 && job.jobId == jobId && job.version == 1 && job.question == a.question
                 && IsContext(a, job.context) && job.outputSchema == a.outputSchema
                 && job.resourceKeys == a.resourceKeys && job.requestedAt == at
                 && (job.deadlineAt.Some? <==> a.deadlineSeconds.Some?)
                 && (job.deadlineAt.Some? ==> job.deadlineAt.value - at == a.deadlineSeconds.value)
                 && job.status == Pending && job.result == Null && job.evidence == map[] && job.error == None
  {
    hide Refuses, HasTwin, Twin, PendingJobs, FindJob, IsContext, IsTwin;
    TwinIs(jobs, a);
    ContextIs(a);
    if HasTwin(jobs, a) { TwinIsFirst(jobs, a); }
  }

  // ---- results ----

  ghost predicate PendingAt(jobs: seq<CognitionJob>, a: Reply, i: nat) {
    i < |jobs| && jobs[i].jobId == a.jobId && jobs[i].status == Pending
  }

  /** The answer that a reply to this pending job deserves. */
  ghost predicate Judged(m: Measure, job: CognitionJob, a: Reply, clock: real, why: Option<Refusal>) {
    if job.deadlineAt.Some? && job.deadlineAt.value < clock then why == Some(TooLate)
    else if m.size(a.result).None? || m.size(a.result).value > 200_000 || !Fits(m, a.evidence, 50_000)
      then why == Some(TooLarge)
    else if !m.conforms(a.result, job.outputSchema) then why == Some(BadResult)
    else why == None
  }

  /** The answer that a reply deserves: the tests stand in the source's order. */
  ghost predicate Deserves(m: Measure, jobs: seq<CognitionJob>, a: Reply, clock: real, why: Option<Refusal>) {
    if Absent(jobs, a.jobId) then why == Some(UnknownJob)
    else if forall i: nat :: !PendingAt(jobs, a, i) then why == Some(AlreadySettled)
    else if a.expectedVersion != 1 then why == Some(VersionMoved)
    else exists i: nat :: PendingAt(jobs, a, i) && Judged(m, jobs[i], a, clock, why)
  }

  /** The jobs after a reply: a late one settles the job as overdue, a good one as completed. */
  ghost predicate FiledAs(n: seq<CognitionJob>, jobs: seq<CognitionJob>, a: Reply, why: Option<Refusal>) {
    && |n| == |jobs|
    && forall i | 0 <= i < |jobs| ::
         n[i] == if jobs[i].jobId != a.jobId then jobs[i]
                 else if why == Some(TooLate) then
                   jobs[i].(version := 2, status := Overdue, error := Some("result arrived after deadline"))
                 else if why == None then
                   jobs[i].(version := 2, status := Completed, result := a.result, evidence := a.evidence,
                            error := None)
                 else jobs[i]
  }

  function Verdict(r: Answer<CognitionJob>): Option<Refusal> { if r.Refused? then Some(r.why) else None }

  lemma ReplyDeserves(m: Measure, jobs: seq<CognitionJob>, a: Reply, clock: real)
    requires Legal(jobs)
    ensures Deserves(m, jobs, a, clock, Verdict(Completes(m, jobs, a, clock).1))
  {
    hide DistinctJobs, VersionedJobs, FindJob, Absent, SettleIds;
    FindIsFirst(jobs, a.jobId);
    FindUnique(jobs, a.jobId);
    var job := FindJob(jobs, a.jobId);
    if job.Some? {
      var i: nat :| i < |jobs| && jobs[i] == job.value;
      if job.value.status.Pending? {
        FoundPending(jobs, job.value);
        assert PendingAt(jobs, a, i);
      }
    }
  }

  lemma LateWrites(job: CognitionJob)
    ensures Changed(job, LATE)
         == job.(version := 2, status := Overdue, error := Some("result arrived after deadline"))
  {
  }

  lemma ResultWrites(job: CognitionJob, a: Reply)
    ensures Changed(job, Change(2, Completed, Some((a.result, a.evidence)), None))
         == job.(version := 2, status := Completed, result := a.result, evidence := a.evidence, error := None)
  {
  }

  /** The three things that a reply can do to the jobs. */
  lemma ReplyDoes(m: Measure, jobs: seq<CognitionJob>, a: Reply, clock: real)
    ensures var (n, r) := Completes(m, jobs, a, clock);
            match Verdict(r)
            case None =>
              && FindJob(jobs, a.jobId).Some?
              && var c := Change(2, Completed, Some((a.result, a.evidence)), None);
                 n == SettleIds(jobs, {a.jobId}, c) && r.value == Changed(FindJob(jobs, a.jobId).value, c)
            case Some(TooLate) => n == SettleIds(jobs, {a.jobId}, LATE)
            case _ => n == jobs
  {
    hide SettleIds, FindJob, Within, Changed, Due;
  }

  lemma ReplyIsFiled(m: Measure, jobs: seq<CognitionJob>, a: Reply, clock: real)
    requires Legal(jobs)
    ensures var (n, r) := Completes(m, jobs, a, clock); FiledAs(n, jobs, a, Verdict(r)) && (r.Given? ==> r.value in n)
  {
    hide VersionedJobs, FindJob, DistinctJobs, Completes, Changed, SettleIds;
    ReplyDoes(m, jobs, a, clock);
    var (n, r) := Completes(m, jobs, a, clock);
    forall i | 0 <= i < |jobs| && jobs[i].jobId == a.jobId
      ensures Changed(jobs[i], LATE)
           == jobs[i].(version := 2, status := Overdue, error := Some("result arrived after deadline"))
      ensures Changed(jobs[i], Change(2, Completed, Some((a.result, a.evidence)), None))
           == jobs[i].(version := 2, status := Completed, result := a.result, evidence := a.evidence, error := None)
    {
      LateWrites(jobs[i]);
      ResultWrites(jobs[i], a);
    }
    if r.Given? {
      var i: nat :| i < |jobs| && jobs[i] == FindJob(jobs, a.jobId).value;
      assert n[i] == r.value;
    }
  }

  /** A reply gets the answer it deserves, and the jobs are what that answer makes of them. */
  lemma ReplyIsAnswered(m: Measure, jobs: seq<CognitionJob>, a: Reply, clock: real)
    requires Legal(jobs)
    ensures var (n, r) := Completes(m, jobs, a, clock);
            && Deserves(m, jobs, a, clock, Verdict(r)) && FiledAs(n, jobs, a, Verdict(r))
            && (r.Given? ==> r.value in n)
  {
    hide Legal, Completes, Deserves, FiledAs;
    ReplyDeserves(m, jobs, a, clock);
    ReplyIsFiled(m, jobs, a, clock);
  }

  // ---- expiry and withdrawal ----

  /** Expiry writes this over every due job, and nothing over the others. */
  lemma ExpiryWrites(jobs: seq<CognitionJob>, now: real)
    requires Legal(jobs)
    ensures var n := SettleIds(jobs, DueIds(jobs, now), ELAPSED);
            forall i | 0 <= i < |jobs| ::
              n[i] == if jobs[i].status == Pending && jobs[i].deadlineAt.Some? && jobs[i].deadlineAt.value < now
                      then jobs[i].(version := 2, status := Overdue, error := Some("cognition deadline elapsed"))
                      else jobs[i]
  {
    hide SettleIds, DistinctJobs;
    forall i | 0 <= i < |jobs| ensures jobs[i].jobId in DueIds(jobs, now) <==> Due(jobs[i], now) {
      assert jobs[i] in jobs;
      if jobs[i].jobId in DueIds(jobs, now) {
        var j :| j in jobs && Due(j, now) && j.jobId == jobs[i].jobId;
        FoundPending(jobs, j);
        FindUnique(jobs, j.jobId);
      }
    }
  }

  function Elapsed(now: real): CognitionJob -> bool {
    (j: CognitionJob) => j.status == Pending && j.deadlineAt.Some? && j.deadlineAt.value < now
  }

  lemma {:induction false} DueOfPendingInOrder(jobs: seq<CognitionJob>, now: real)
    ensures DueList(PendingJobs(jobs), now) == DueList(jobs, now)
  {
    if jobs != [] {
      var before, last := jobs[..|jobs| - 1], jobs[|jobs| - 1];
      DueOfPendingInOrder(before, now);
      PendingSplits(jobs);
      hide PendingJobs, DueList;
      DueStep(before, last, PendingJobs(before), PendingJobs(jobs), now);
      assert jobs == before + [last];
    }
  }

  lemma DueStep(before: seq<CognitionJob>, last: CognitionJob, pending: seq<CognitionJob>, longer: seq<CognitionJob>,
                now: real)
    requires DueList(pending, now) == DueList(before, now)
    requires longer == pending + if last.status.Pending? then [last] else []
    ensures DueList(longer, now) == DueList(before + [last], now)
  {
    hide DueList;
    DueListSplits(before, last, now);
    DueListSplits(pending, last, now);
    assert pending + [] == pending && DueList(before, now) + [] == DueList(before, now);
  }

  lemma PendingSplits(jobs: seq<CognitionJob>)
    requires jobs != []
    ensures var last := jobs[|jobs| - 1];
            PendingJobs(jobs) == PendingJobs(jobs[..|jobs| - 1]) + if last.status.Pending? then [last] else []
  {
  }

  lemma DueListSplits(jobs: seq<CognitionJob>, last: CognitionJob, now: real)
    ensures DueList(jobs + [last], now) == DueList(jobs, now) + if Due(last, now) then [last.jobId] else []
  {
    assert (jobs + [last])[..|jobs|] == jobs;
  }

  lemma {:induction false} DueListInOrder(jobs: seq<CognitionJob>, now: real)
    ensures |DueList(jobs, now)| == Count(jobs, Elapsed(now))
    ensures forall i | 0 <= i < |jobs| && Elapsed(now)(jobs[i]) ::
              Count(jobs[..i], Elapsed(now)) < |DueList(jobs, now)|
              && DueList(jobs, now)[Count(jobs[..i], Elapsed(now))] == jobs[i].jobId
  {
    if jobs != [] {
      var before, last := jobs[..|jobs| - 1], jobs[|jobs| - 1];
      DueListInOrder(before, now);
      CountAppend(before, last, Elapsed(now));
      assert jobs == before + [last];
      assert forall i | 0 <= i <= |before| :: jobs[..i] == before[..i];
      assert before[..|before|] == before;
    }
  }

  /** The ids that expiry reports: one for each due job, in the order of the list. */
  lemma ExpiryReports(jobs: seq<CognitionJob>, now: real)
    ensures var ids := DueList(PendingJobs(jobs), now);
            && |ids| == Count(jobs, Elapsed(now))
            && forall i | 0 <= i < |jobs| && Elapsed(now)(jobs[i]) ::
                 Count(jobs[..i], Elapsed(now)) < |ids| && ids[Count(jobs[..i], Elapsed(now))] == jobs[i].jobId
  {
    DueOfPendingInOrder(jobs, now);
    DueListInOrder(jobs, now);
  }

  lemma WithdrawalWrites(jobs: seq<CognitionJob>, reason: string)
    requires Legal(jobs)
    ensures var n := SettleIds(jobs, PendingIds(jobs), Cancelling(reason));
            forall i | 0 <= i < |jobs| ::
              n[i] == if jobs[i].status == Pending
                      then jobs[i].(version := 2, status := Withdrawn,
                                    error := Some(if reason == "" then "cancelled" else reason))
                      else jobs[i]
  {
    hide SettleIds, DistinctJobs;
    forall i | 0 <= i < |jobs| ensures jobs[i].jobId in PendingIds(jobs) <==> jobs[i].status == Pending {
      assert jobs[i] in jobs;
      if jobs[i].jobId in PendingIds(jobs) {
        var j :| j in jobs && j.status.Pending? && j.jobId == jobs[i].jobId;
        FoundPending(jobs, j);
        FindUnique(jobs, j.jobId);
      }
    }
  }
}
