/** Which events the managed reducer accepts, in every state, and why it rejects the others
    (host/reduce.py:25-169). */
module HostAcceptance {
  import opened JsonModel
  import opened HostReduce

  const ENDED: set<ManagedStatus> := {Succeeded, Failed, Cancelled, Expired}

  /** The first job with this id stands at `i`. */
  ghost predicate FirstAt(jobs: seq<CognitionJob>, id: string, i: nat) {
    i < |jobs| && jobs[i].jobId == id && forall j | 0 <= j < i :: jobs[j].jobId != id
  }

  ghost predicate Absent(jobs: seq<CognitionJob>, id: string) { forall i | 0 <= i < |jobs| :: jobs[i].jobId != id }

  ghost predicate Open(jobs: seq<CognitionJob>, id: string) {
    exists i: nat :: FirstAt(jobs, id, i) && jobs[i].status == Pending
  }

  ghost predicate OpenAt(jobs: seq<CognitionJob>, id: string, version: int) {
    exists i: nat :: FirstAt(jobs, id, i) && jobs[i].status == Pending && jobs[i].version == version
  }

  /** Only a few events depend on the state: all others, heartbeats and errors among them, are accepted
      in every status, even after the end. */
  ghost predicate Welcome(st: ManagedState, b: Body) {
    match b
    case RunCreated(_) => false
    case WorkerStarted(_) => st.status == Starting
    case RunFinished(status, _, _) => status in ENDED && st.status !in ENDED
    case CognitionRequested(id, _, _, _, _, _) => Absent(st.cognition, id)
    case CognitionCompleted(id, version, _, _) => OpenAt(st.cognition, id, version - 1)
    case CognitionCancelled(id, _) => Open(st.cognition, id)
    case CognitionExpired(id, _) => Open(st.cognition, id)
    case _ => true
  }

  lemma {:induction false} FindIsFirst(jobs: seq<CognitionJob>, id: string)
    ensures FindJob(jobs, id).None? <==> Absent(jobs, id)
    ensures forall i: nat | FirstAt(jobs, id, i) :: FindJob(jobs, id) == Some(jobs[i])
    ensures FindJob(jobs, id).Some? ==> exists i: nat :: FirstAt(jobs, id, i)
  {
    if jobs != [] {
      FindIsFirst(jobs[1..], id);
      if jobs[0].jobId == id {
        assert FirstAt(jobs, id, 0);
      } else {
        forall i: nat | FirstAt(jobs, id, i) ensures i > 0 && FirstAt(jobs[1..], id, i - 1) {
          assert forall j | 0 <= j < i - 1 :: jobs[1..][j] == jobs[j + 1];
        }
        if FindJob(jobs[1..], id).Some? {
          var i: nat :| FirstAt(jobs[1..], id, i);
          assert forall j | 0 < j < i + 1 :: jobs[j] == jobs[1..][j - 1];
          assert FirstAt(jobs, id, i + 1);
        }
        if Absent(jobs[1..], id) {
          assert forall i | 0 < i < |jobs| :: jobs[i] == jobs[1..][i - 1];
        }
        if Absent(jobs, id) {
          assert forall i | 0 <= i < |jobs[1..]| :: jobs[1..][i] == jobs[i + 1];
        }
      }
    }
  }

  lemma SettlesExactly(jobs: seq<CognitionJob>, e: ManagedEvent)
    requires Cognitive(e.body)
    ensures NextJobs(jobs, e).Ok? <==>
              match e.body
              case CognitionRequested(id, _, _, _, _, _) => Absent(jobs, id)
              case CognitionCompleted(id, version, _, _) => OpenAt(jobs, id, version - 1)
              case CognitionCancelled(id, _) => Open(jobs, id)
              case CognitionExpired(id, _) => Open(jobs, id)
              case _ => true
  {
    hide FindJob, ReplaceJob, FirstAt, Absent;
    var id := match e.body
              case CognitionRequested(id, _, _, _, _, _) => id
              case CognitionCompleted(id, _, _, _) => id
              case CognitionCancelled(id, _) => id
              case CognitionExpired(id, _) => id;
    FindIsFirst(jobs, id);
  }

  /** An event is accepted exactly when it creates the run, or is welcome in the state it meets. */
  lemma AcceptedExactly(before: Option<ManagedState>, e: ManagedEvent)
    ensures Apply(before, e).Ok? <==> if before.None? then e.body.RunCreated? else Welcome(before.value, e.body)
  {
    hide NextJobs, Deadline, OrElse, Open, OpenAt, Absent;
    if before.Some? && Cognitive(e.body) { SettlesExactly(before.value.cognition, e); }
  }

  /** Every rejection has its own reason. */
  lemma RejectedFor(before: Option<ManagedState>, e: ManagedEvent)
    requires Apply(before, e).Err?
    ensures var why, b := Apply(before, e).reason, e.body;
            if before.None? then why == NotCreated
            else
              var st := before.value;
              && (why == AlreadyCreated <==> b.RunCreated?)
              && (why == CannotStart <==> b.WorkerStarted?)
              && (why == NotTerminal <==> b.RunFinished? && b.finalStatus !in ENDED)
              && (why == AlreadyTerminal <==> b.RunFinished? && b.finalStatus in ENDED)
              && (why == DuplicateJob <==> b.CognitionRequested?)
              && (why == WrongVersion <==> b.CognitionCompleted? && Open(st.cognition, b.completedJob))
              && (why == NotPending <==>
                    || b.CognitionCancelled? || b.CognitionExpired?
                    || (b.CognitionCompleted? && !Open(st.cognition, b.completedJob)))
  {
    hide Deadline, OrElse, FindJob, ReplaceJob, FirstAt, Absent;
    if before.Some? && e.body.CognitionCompleted? { FindIsFirst(before.value.cognition, e.body.completedJob); }
  }

  /** A lease is kept alive in every status: a heartbeat is accepted and moves the deadline to the lease
      after it, unless the run is detached or has no lease. */
  lemma HeartbeatRenews(st: ManagedState, e: ManagedEvent)
    requires e.body.Heartbeat?
    ensures Apply(Some(st), e).Ok?
    ensures var n := Apply(Some(st), e).value;
            && n.heartbeatAt == Some(e.at) && n.status == st.status
            && (!st.spec.detached && st.spec.leaseSeconds.Some? ==>
                  n.leaseDeadline.Some? && n.leaseDeadline.value - e.at == st.spec.leaseSeconds.value)
            && (st.spec.detached || st.spec.leaseSeconds.None? ==> n.leaseDeadline == st.leaseDeadline)
  {
    hide NextJobs, OrElse;
  }

  /** Over journals: one more event is accepted exactly when it carries the next number and is welcome. */
  lemma JournalGrowsExactly(events: seq<ManagedEvent>, e: ManagedEvent)
    requires Fold(events).Ok?
    ensures Fold(events + [e]).Ok? <==>
              && e.seqNo == |events| + 1
              && (if Fold(events).value.None? then e.body.RunCreated? else Welcome(Fold(events).value.value, e.body))
  {
    hide Apply, Fold, Welcome;
    FoldAppend(events, e);
    AcceptedExactly(Fold(events).value, e);
  }
}
