/** The kernel state said without the reducer: what the log as a whole makes of each field, by where its
    events stand (core/reduce.py). */
module KernelSummary {
  import opened JsonModel
  import opened KernelTypes
  import opened KernelReduce
  import opened KernelGuards
  import opened KernelLedger
  import opened Logs

  const DECIDES: Event -> bool := (e: Event) => e.body.DecisionMade?
  const REJECTS: Event -> bool := (e: Event) => e.body.DecisionRejected?
  const INTENDS: Event -> bool := (e: Event) => e.body.IntentRecorded?
  const EXECUTES: Event -> bool := (e: Event) => e.body.ReceiptRecorded?
  const OBSERVES: Event -> bool := (e: Event) => e.body.Observed?
  const LOOKS: Event -> bool := (e: Event) => e.body.Observed? || e.body.ObserveFailed?
  const ESCALATES: Event -> bool := (e: Event) => e.body.GuardRaised? && e.body.outcome.escalate
  const TRIES: Event -> bool := (e: Event) => e.body.ReceiptRecorded? || e.body.OperationResolved?
  const SETS_STATUS: Event -> bool := (e: Event) =>
    e.body.RunStarted? || e.body.RunSuspended? || e.body.Resumed? || e.body.RunFinished?
  const SETS_REASON: Event -> bool := (e: Event) => e.body.RunSuspended? || e.body.Resumed? || e.body.RunFinished?
  const VERSIONS: Event -> bool := (e: Event) =>
    e.body.TaskUpdated? || e.body.Observed? || e.body.ObserveFailed? || e.body.FrameBuilt? || e.body.ReceiptRecorded?

  // ---- what the state says of the log -----------------------------------------------------

  ghost function Visits(log: seq<Event>, fingerprint: string): nat {
    if log == [] then 0
    else
      var b := log[|log| - 1].body;
      Visits(log[..|log| - 1], fingerprint) + if b.FrameBuilt? && b.fingerprint == fingerprint then 1 else 0
  }

  /** The verdicts, the step records and the resume inputs, in order. */
  ghost function Verdicts(log: seq<Event>): seq<Verdict> {
    if log == [] then []
    else Verdicts(log[..|log| - 1]) + match log[|log| - 1].body case Verified(v) => [v] case _ => []
  }

  ghost function Records(log: seq<Event>): seq<StepRecord> {
    if log == [] then []
    else Records(log[..|log| - 1]) + match log[|log| - 1].body case StepRecorded(r) => [r] case _ => []
  }

  ghost function Inputs(log: seq<Event>): seq<Json> {
    if log == [] then []
    else Inputs(log[..|log| - 1]) + match log[|log| - 1].body case Resumed(Some(input)) => [input] case _ => []
  }

  ghost predicate Counts(st: RuntimeState, log: seq<Event>) {
    && st.counters == Counters(Count(log, DECIDES), Count(log, REJECTS), Count(log, INTENDS), Count(log, EXECUTES))
    && st.observations == Count(log, OBSERVES)
    && st.guardEscalations == Count(log, ESCALATES)
    && st.stateVersion == Count(log, VERSIONS)
  }

  ghost predicate Lists(st: RuntimeState, log: seq<Event>) {
    && st.verifications == Verdicts(log)
    && st.history == Records(log)
    && st.resumeInputs == Inputs(log)
  }

  /** The step is the largest step of any event. */
  ghost predicate Furthest(st: RuntimeState, log: seq<Event>) {
    && (forall i | 0 <= i < |log| :: log[i].step <= st.step)
    && (st.step == 0 || exists i :: 0 <= i < |log| && log[i].step == st.step)
  }

  /** The observation is the last good one; it is stale when the last look failed. */
  ghost predicate Sees(st: RuntimeState, log: seq<Event>) {
    && (forall i: nat | IsLast(log, i, OBSERVES) :: st.observation == Some(log[i].body.observation))
    && (HasNone(log, OBSERVES) ==> st.observation == None)
    && (st.observationStale <==> exists i: nat :: IsLast(log, i, LOOKS) && log[i].body.ObserveFailed?)
  }

  /** An observation that differs in revision from the one before it, or is the first. */
  ghost predicate Turns(log: seq<Event>, j: nat) {
    && j < |log| && log[j].body.Observed?
    && forall i: nat | IsLast(log[..j], i, OBSERVES) ::
         log[..j][i].body.observation.revision != log[j].body.observation.revision
  }

  ghost predicate Excludes(log: seq<Event>, i: nat, key: string) {
    i < |log| && log[i].body.GuardRaised? && key in log[i].body.outcome.deadKeys
  }

  /** A key is excluded when a guard excluded it and the revision has not turned since. */
  ghost predicate Dead(log: seq<Event>, key: string) {
    exists i: nat :: Excludes(log, i, key) && forall j: nat | i < j :: !Turns(log, j)
  }

  ghost predicate Bars(st: RuntimeState, log: seq<Event>) {
    forall key :: key in st.deadActions <==> Dead(log, key)
  }

  function StatusOf(b: Payload): RunStatus {
    if b.RunSuspended? then Suspended else if b.RunFinished? then b.finalStatus else Running
  }

  function ReasonOf(b: Payload): Option<StopReason> {
    if b.RunSuspended? then Some(b.suspendReason) else if b.RunFinished? then b.finalReason else None
  }

  /** Status and reason are those of the last event that sets them. */
  ghost predicate Stands(st: RuntimeState, log: seq<Event>) {
    && (forall i: nat | IsLast(log, i, SETS_STATUS) :: st.status == StatusOf(log[i].body))
    && (HasNone(log, SETS_STATUS) ==> st.status == Running)
    && (forall i: nat | IsLast(log, i, SETS_REASON) :: st.stopReason == ReasonOf(log[i].body))
    && (HasNone(log, SETS_REASON) ==> st.stopReason == None)
  }

  /** The attempt that the event at `i` stands for, on the revision that was last seen before it. */
  ghost predicate IsAttempt(log: seq<Event>, i: nat, a: Attempt) {
    && i < |log| && TRIES(log[i]) && a.step == log[i].step
    && (a.key, a.status) == (if log[i].body.ReceiptRecorded? then (log[i].body.key, log[i].body.status)
                             else (log[i].body.resolvedKey, log[i].body.resolvedStatus))
    && (forall s: nat | IsLast(log[..i], s, OBSERVES) :: a.observation == log[..i][s].body.observation.revision)
    && (HasNone(log[..i], OBSERVES) ==> a.observation == "unknown")
  }

  /** One attempt for every receipt and every resolution, in their order. */
  ghost predicate Tried(st: RuntimeState, log: seq<Event>) {
    && |st.attempts| == Count(log, TRIES)
    && forall i: nat | i < |log| && TRIES(log[i]) ::
         Count(log[..i], TRIES) < |st.attempts| && IsAttempt(log, i, st.attempts[Count(log[..i], TRIES)])
  }

  /** A receipt that left an operation open, which nothing has resolved since. */
  ghost predicate StillOpen(log: seq<Event>, i: nat, id: OperationId) {
    && i < |log| && log[i].body.ReceiptRecorded? && log[i].body.operation == id && log[i].body.status.Unresolved()
    && forall j | i < j < |log| :: !(log[j].body.OperationResolved? && log[j].body.resolved == id)
  }

  /** The first of them: a second open receipt under the same id adds nothing. */
  ghost predicate Opened(log: seq<Event>, i: nat, u: UnresolvedOperation) {
    && StillOpen(log, i, u.operationId) && (forall h: nat | h < i :: !StillOpen(log, h, u.operationId))
    && u == UnresolvedOperation(log[i].body.operation, log[i].body.key, log[i].body.status, log[i].step,
                                log[i].body.args, log[i].body.idempotency)
  }

  /** The open operations are those that a receipt opened and nothing has resolved. */
  ghost predicate Owes(st: RuntimeState, log: seq<Event>) {
    forall u :: u in st.unresolved <==> exists i: nat :: Opened(log, i, u)
  }

  /** They are kept in the order in which they opened, so each of them once. */
  ghost predicate InOrder(st: RuntimeState, log: seq<Event>) {
    forall a, b, i: nat, j: nat
      | 0 <= a < b < |st.unresolved| && Opened(log, i, st.unresolved[a]) && Opened(log, j, st.unresolved[b]) :: i < j
  }

  ghost predicate Summarized(st: RuntimeState, log: seq<Event>) {
    Counts(st, log) && Lists(st, log) && Furthest(st, log) && Sees(st, log) && Bars(st, log) && Stands(st, log)
    && Tried(st, log) && Owes(st, log) && InOrder(st, log)
  }

  // ---- one more event ---------------------------------------------------------------------

  lemma CountsStep(st: RuntimeState, log: seq<Event>, e: Event)
    requires Counts(st, log)
    ensures Counts(Apply(st, e), log + [e])
  {
    hide Count;
    CountAppend(log, e, DECIDES);
    CountAppend(log, e, REJECTS);
    CountAppend(log, e, INTENDS);
    CountAppend(log, e, EXECUTES);
    CountAppend(log, e, OBSERVES);
    CountAppend(log, e, ESCALATES);
    CountAppend(log, e, VERSIONS);
  }

  lemma VerdictsStep(st: RuntimeState, log: seq<Event>, e: Event)
    requires st.verifications == Verdicts(log)
    ensures Apply(st, e).verifications == Verdicts(log + [e])
  {
    var longer := log + [e];
    assert longer[..|longer| - 1] == log;
  }

  lemma RecordsStep(st: RuntimeState, log: seq<Event>, e: Event)
    requires st.history == Records(log)
    ensures Apply(st, e).history == Records(log + [e])
  {
    var longer := log + [e];
    assert longer[..|longer| - 1] == log;
  }

  lemma InputsStep(st: RuntimeState, log: seq<Event>, e: Event)
    requires st.resumeInputs == Inputs(log)
    ensures Apply(st, e).resumeInputs == Inputs(log + [e])
  {
    var longer := log + [e];
    assert longer[..|longer| - 1] == log;
  }

  lemma ListsStep(st: RuntimeState, log: seq<Event>, e: Event)
    requires Lists(st, log)
    ensures Lists(Apply(st, e), log + [e])
  {
    hide Apply, Verdicts, Records, Inputs;
    VerdictsStep(st, log, e);
    RecordsStep(st, log, e);
    InputsStep(st, log, e);
  }

  lemma StepOfApply(st: RuntimeState, e: Event)
    ensures Apply(st, e).step == Max(st.step, e.step)
  {
  }

  lemma FurthestStep(st: RuntimeState, log: seq<Event>, e: Event)
    requires Furthest(st, log)
    ensures Furthest(Apply(st, e), log + [e])
  {
    hide Apply;
    StepOfApply(st, e);
    var longer := log + [e];
    assert longer[|log|] == e;
    if st.step >= e.step && st.step != 0 {
      var i :| 0 <= i < |log| && log[i].step == st.step;
      assert longer[i].step == st.step;
    }
  }

  lemma SightOfApply(st: RuntimeState, e: Event)
    ensures var n := Apply(st, e);
            && n.observation == (if e.body.Observed? then Some(e.body.observation) else st.observation)
            && (n.observationStale <==> e.body.ObserveFailed? || (st.observationStale && !e.body.Observed?))
  {
  }

  lemma SeesStep(st: RuntimeState, log: seq<Event>, e: Event)
    requires Sees(st, log)
    ensures Sees(Apply(st, e), log + [e])
  {
    hide Apply, IsLast, HasNone;
    SightOfApply(st, e);
    LastAppend(log, e, OBSERVES);
    LastAppend(log, e, LOOKS);
    var longer := log + [e];
    LastIsInside(log, OBSERVES);
    LastIsInside(log, LOOKS);
    assert forall i | 0 <= i < |log| :: longer[i] == log[i];
    if LOOKS(e) {
      assert IsLast(longer, |log|, LOOKS);
    } else if st.observationStale {
      var i: nat :| IsLast(log, i, LOOKS) && log[i].body.ObserveFailed?;
      assert IsLast(longer, i, LOOKS);
    }
  }

  lemma TurnsAppend(log: seq<Event>, e: Event, j: nat)
    requires j < |log|
    ensures Turns(log + [e], j) <==> Turns(log, j)
  {
    assert (log + [e])[..j] == log[..j];
  }

  /** The last event turns the revision exactly when it is an observation that the state does not have. */
  lemma TurnsNow(st: RuntimeState, log: seq<Event>, e: Event)
    requires Sees(st, log)
    ensures Turns(log + [e], |log|) <==>
              e.body.Observed? && (st.observation.None? || st.observation.value.revision != e.body.observation.revision)
  {
    hide IsLast, HasNone;
    var longer := log + [e];
    assert longer[..|log|] == log;
    LastIsInside(log, OBSERVES);
    SomeIsLast(log, OBSERVES);
  }

  lemma DeadOfApply(st: RuntimeState, e: Event)
    ensures var n := Apply(st, e);
            n.deadActions
              == if e.body.GuardRaised? then st.deadActions + e.body.outcome.deadKeys
                 else if e.body.Observed? && (st.observation.None?
                                              || st.observation.value.revision != e.body.observation.revision)
                   then {} else st.deadActions
  {
  }

  lemma DeadAppend(log: seq<Event>, e: Event, key: string)
    ensures Dead(log + [e], key) <==>
              (Dead(log, key) && !Turns(log + [e], |log|)) || (e.body.GuardRaised? && key in e.body.outcome.deadKeys)
  {
    hide Turns;
    var longer := log + [e];
    forall j: nat | j < |log| ensures Turns(longer, j) <==> Turns(log, j) { TurnsAppend(log, e, j); }
    assert forall i: nat :: Excludes(longer, i, key) <==>
             Excludes(log, i, key) || (i == |log| && e.body.GuardRaised? && key in e.body.outcome.deadKeys);
    TurnsInside(log);
    TurnsInside(longer);
    if Dead(log, key) && !Turns(longer, |log|) {
      var i: nat :| Excludes(log, i, key) && forall j: nat | i < j :: !Turns(log, j);
      assert Excludes(longer, i, key);
      assert forall j: nat | i < j :: !Turns(longer, j);
    }
    if e.body.GuardRaised? && key in e.body.outcome.deadKeys { assert Excludes(longer, |log|, key); }
    if Dead(longer, key) {
      var i: nat :| Excludes(longer, i, key) && forall j: nat | i < j :: !Turns(longer, j);
      if i < |log| {
        assert Excludes(log, i, key);
        assert forall j: nat | i < j :: !Turns(log, j);
      }
    }
  }

  lemma TurnsInside(log: seq<Event>)
    ensures forall j: nat | Turns(log, j) :: j < |log|
  {
  }

  lemma BarsStep(st: RuntimeState, log: seq<Event>, e: Event)
    requires Bars(st, log) && Sees(st, log)
    ensures Bars(Apply(st, e), log + [e])
  {
    hide Apply, Dead, Turns, Sees;
    DeadOfApply(st, e);
    TurnsNow(st, log, e);
    forall key ensures key in Apply(st, e).deadActions <==> Dead(log + [e], key) { DeadAppend(log, e, key); }
  }

  lemma StandingOfApply(st: RuntimeState, e: Event)
    ensures var n := Apply(st, e);
            && n.status == (if SETS_STATUS(e) then StatusOf(e.body) else st.status)
            && n.stopReason == (if SETS_REASON(e) then ReasonOf(e.body) else st.stopReason)
  {
  }

  lemma StandsStep(st: RuntimeState, log: seq<Event>, e: Event)
    requires Stands(st, log)
    ensures Stands(Apply(st, e), log + [e])
  {
    hide Apply, IsLast, HasNone, StatusOf, ReasonOf;
    StandingOfApply(st, e);
    LastAppend(log, e, SETS_STATUS);
    LastAppend(log, e, SETS_REASON);
    LastIsInside(log, SETS_STATUS);
    LastIsInside(log, SETS_REASON);
    var longer := log + [e];
    assert forall i | 0 <= i < |log| :: longer[i] == log[i];
  }

  lemma AttemptsOfApply(st: RuntimeState, e: Event)
    ensures var n := Apply(st, e);
            n.attempts == st.attempts + match e.body
                                        case ReceiptRecorded(_, key, _, _, status) =>
                                          [Attempt(st.Revision(), key, status, e.step)]
                                        case OperationResolved(_, key, status) =>
                                          [Attempt(st.Revision(), key, status, e.step)]
                                        case _ => []
  {
  }

  lemma TriedStep(st: RuntimeState, log: seq<Event>, e: Event)
    requires Tried(st, log) && Sees(st, log)
    ensures Tried(Apply(st, e), log + [e])
  {
    hide Apply, IsLast, HasNone, Count, IsAttempt;
    AttemptsOfApply(st, e);
    CountAppend(log, e, TRIES);
    var longer, n := log + [e], Apply(st, e);
    forall i: nat | i < |longer| && TRIES(longer[i])
      ensures Count(longer[..i], TRIES) < |n.attempts| && IsAttempt(longer, i, n.attempts[Count(longer[..i], TRIES)])
    {
      if i < |log| {
        assert longer[..i] == log[..i] && longer[i] == log[i];
        AttemptStays(log, e, i, st.attempts[Count(log[..i], TRIES)]);
      } else {
        assert longer[..i] == log;
        NewAttempt(st, log, e, n.attempts[|st.attempts|]);
      }
    }
  }

  lemma AttemptStays(log: seq<Event>, e: Event, i: nat, a: Attempt)
    requires IsAttempt(log, i, a)
    ensures IsAttempt(log + [e], i, a)
  {
    assert (log + [e])[..i] == log[..i];
  }

  lemma NewAttempt(st: RuntimeState, log: seq<Event>, e: Event, a: Attempt)
    requires Sees(st, log) && TRIES(e)
    requires a == Attempt(st.Revision(), if e.body.ReceiptRecorded? then e.body.key else e.body.resolvedKey,
                          if e.body.ReceiptRecorded? then e.body.status else e.body.resolvedStatus, e.step)
    ensures IsAttempt(log + [e], |log|, a)
  {
    hide IsLast, HasNone;
    LastIsInside(log, OBSERVES);
    assert (log + [e])[..|log|] == log;
  }

  lemma OpenOfApply(st: RuntimeState, e: Event)
    ensures var n := Apply(st, e).unresolved;
            match e.body
            case ReceiptRecorded(op, key, args, idem, status) =>
              n == if status.Unresolved() && forall u | u in st.unresolved :: u.operationId != op
                   then st.unresolved + [UnresolvedOperation(op, key, status, e.step, args, idem)] else st.unresolved
            case OperationResolved(op, _, _) => n == Without(st.unresolved, op)
            case _ => n == st.unresolved
  {
  }

  lemma StillOpenAppend(log: seq<Event>, e: Event, i: nat, id: OperationId)
    ensures StillOpen(log + [e], i, id) <==>
              if i == |log| then e.body.ReceiptRecorded? && e.body.operation == id && e.body.status.Unresolved()
              else StillOpen(log, i, id) && !(e.body.OperationResolved? && e.body.resolved == id)
  {
    var longer := log + [e];
    assert forall j | 0 <= j < |log| :: longer[j] == log[j];
    assert longer[|log|] == e;
  }

  /** Of the open receipts under one id there is a first one. */
  lemma {:induction false} FirstIsOpened(log: seq<Event>, i: nat, id: OperationId) returns (u: UnresolvedOperation)
    requires StillOpen(log, i, id)
    ensures u.operationId == id && exists h: nat :: h <= i && Opened(log, h, u)
  {
    hide StillOpen;
    if h: nat :| h < i && StillOpen(log, h, id) {
      u := FirstIsOpened(log, h, id);
    } else {
      u := OpenedHere(log, i, id);
    }
  }

  lemma OpenedHere(log: seq<Event>, i: nat, id: OperationId) returns (u: UnresolvedOperation)
    requires StillOpen(log, i, id) && forall h: nat | h < i :: !StillOpen(log, h, id)
    ensures u.operationId == id && Opened(log, i, u)
  {
    u := UnresolvedOperation(log[i].body.operation, log[i].body.key, log[i].body.status, log[i].step, log[i].body.args,
                             log[i].body.idempotency);
  }

  /** The event opens an operation that nothing had open. */
  ghost predicate Opens(log: seq<Event>, e: Event, u: UnresolvedOperation) {
    && e.body.ReceiptRecorded? && e.body.status.Unresolved()
    && u == UnresolvedOperation(e.body.operation, e.body.key, e.body.status, e.step, e.body.args, e.body.idempotency)
    && forall h: nat :: !StillOpen(log, h, u.operationId)
  }

  predicate Closes(e: Event, u: UnresolvedOperation) { e.body.OperationResolved? && e.body.resolved == u.operationId }

  lemma OpenedAppend(log: seq<Event>, e: Event, i: nat, u: UnresolvedOperation)
    ensures Opened(log + [e], i, u) <==>
              if i < |log| then Opened(log, i, u) && !Closes(e, u) else i == |log| && Opens(log, e, u)
  {
    hide StillOpen;
    OpenIsInside(log);
    OpenIsInside(log + [e]);
    forall h: nat
      ensures StillOpen(log + [e], h, u.operationId) <==>
                if h == |log|
                then e.body.ReceiptRecorded? && e.body.operation == u.operationId && e.body.status.Unresolved()
                else StillOpen(log, h, u.operationId) && !Closes(e, u)
    {
      StillOpenAppend(log, e, h, u.operationId);
    }
    assert i < |log| ==> (log + [e])[i] == log[i];
    assert (log + [e])[|log|] == e;
  }

  lemma OpenIsInside(log: seq<Event>)
    ensures forall i: nat, id | StillOpen(log, i, id) :: i < |log| && log[i].body.ReceiptRecorded?
  {
  }

  /** An id is known to the state exactly when a receipt under it is still open. */
  lemma KnownIsOpen(st: RuntimeState, log: seq<Event>, id: OperationId)
    requires Owes(st, log)
    ensures (exists u :: u in st.unresolved && u.operationId == id) <==> exists i: nat :: StillOpen(log, i, id)
  {
    hide StillOpen;
    if i: nat :| StillOpen(log, i, id) {
      var u := FirstIsOpened(log, i, id);
    }
    if u :| u in st.unresolved && u.operationId == id {
      var i: nat :| Opened(log, i, u);
      assert StillOpen(log, i, id);
    }
  }

  lemma OwesStep(st: RuntimeState, log: seq<Event>, e: Event)
    requires Owes(st, log)
    ensures Owes(Apply(st, e), log + [e])
  {
    hide Apply, Opened, StillOpen;
    var longer, n := log + [e], Apply(st, e);
    OpenOfApply(st, e);
    forall u ensures u in n.unresolved <==> exists i: nat :: Opened(longer, i, u) {
      KnownIsOpen(st, log, u.operationId);
      if u in n.unresolved {
        if u in st.unresolved {
          var i: nat :| Opened(log, i, u);
          OpenedAppend(log, e, i, u);
          OpenedInside(log, i, u);
          assert Opened(longer, i, u);
        } else {
          OpenedAppend(log, e, |log|, u);
          assert Opened(longer, |log|, u);
        }
      }
      if i: nat :| Opened(longer, i, u) { OpenedAppend(log, e, i, u); }
    }
  }

  lemma OpenedInside(log: seq<Event>, i: nat, u: UnresolvedOperation)
    requires Opened(log, i, u)
    ensures i < |log|
  {
  }

  ghost predicate Pairwise(ops: seq<UnresolvedOperation>, r: (UnresolvedOperation, UnresolvedOperation) -> bool) {
    forall a, b | 0 <= a < b < |ops| :: r(ops[a], ops[b])
  }

  lemma PairwiseCons(u: UnresolvedOperation, ops: seq<UnresolvedOperation>,
                     r: (UnresolvedOperation, UnresolvedOperation) -> bool)
    requires Pairwise(ops, r) && forall v | v in ops :: r(u, v)
    ensures Pairwise([u] + ops, r)
  {
    var longer := [u] + ops;
    forall a, b | 0 <= a < b < |longer| ensures r(longer[a], longer[b]) {
      assert longer[b] == ops[b - 1] && ops[b - 1] in ops;
      if a > 0 { assert longer[a] == ops[a - 1]; }
    }
  }

  lemma PairwiseTail(ops: seq<UnresolvedOperation>, r: (UnresolvedOperation, UnresolvedOperation) -> bool)
    requires ops != [] && Pairwise(ops, r)
    ensures Pairwise(ops[1..], r) && forall v | v in ops[1..] :: r(ops[0], v)
  {
  }

  /** What remains after a removal stands in the order in which it stood. */
  lemma {:induction false} WithoutKeepsPairwise(ops: seq<UnresolvedOperation>, op: OperationId,
                                                r: (UnresolvedOperation, UnresolvedOperation) -> bool)
    requires Pairwise(ops, r)
    ensures Pairwise(Without(ops, op), r)
  {
    hide Pairwise;
    if ops == [] {
      assert Without(ops, op) == ops;
    } else {
      PairwiseTail(ops, r);
      WithoutKeepsPairwise(ops[1..], op, r);
      PairwiseCons(ops[0], Without(ops[1..], op), r);
      assert [] + Without(ops[1..], op) == Without(ops[1..], op);
    }
  }

  ghost function Earlier(log: seq<Event>): (UnresolvedOperation, UnresolvedOperation) -> bool {
    (u, v) => forall i: nat, j: nat | Opened(log, i, u) && Opened(log, j, v) :: i < j
  }

  lemma OrderStep(st: RuntimeState, log: seq<Event>, e: Event)
    requires Owes(st, log) && InOrder(st, log)
    ensures InOrder(Apply(st, e), log + [e])
  {
    hide Apply, Opened, StillOpen;
    OpenOfApply(st, e);
    var longer, n, r := log + [e], Apply(st, e).unresolved, Earlier(log);
    assert Pairwise(st.unresolved, r);
    if e.body.OperationResolved? { WithoutKeepsPairwise(st.unresolved, e.body.resolved, r); }
    forall a, b, i: nat, j: nat | 0 <= a < b < |n| && Opened(longer, i, n[a]) && Opened(longer, j, n[b])
      ensures i < j
    {
      assert n[a] in st.unresolved;
      OldStaysOld(st, log, e, i, n[a]);
      OpenedAppend(log, e, j, n[b]);
      if n[b] in st.unresolved {
        OldStaysOld(st, log, e, j, n[b]);
        assert r(n[a], n[b]);
      } else {
        assert !Opened(log, j, n[b]);
      }
    }
  }

  lemma OldStaysOld(st: RuntimeState, log: seq<Event>, e: Event, i: nat, u: UnresolvedOperation)
    requires Owes(st, log) && u in st.unresolved && Opened(log + [e], i, u)
    ensures i < |log| && Opened(log, i, u)
  {
    hide Opened, StillOpen;
    OpenedAppend(log, e, i, u);
    KnownIsOpen(st, log, u.operationId);
    assert !Opens(log, e, u);
  }

  lemma VisitsStep(st: RuntimeState, log: seq<Event>, e: Event, fingerprint: string)
    requires st.Visits(fingerprint) == Visits(log, fingerprint)
    ensures Apply(st, e).Visits(fingerprint) == Visits(log + [e], fingerprint)
  {
    var longer := log + [e];
    assert longer[..|longer| - 1] == log;
    VisitEffect(st, e, fingerprint);
  }

  /** Folding any log gives the state that the log as a whole describes. */
  lemma {:induction false} StateSummarizesTheLog(c: Setup, log: seq<Event>)
    ensures var st := Replay(InitialState(c), log);
            Summarized(st, log) && st.runId == c.runId && st.startedAt == c.startedAt
  {
    hide Apply, Counts, Lists, Furthest, Sees, Bars, Stands, Tried, Owes, InOrder;
    if log == [] {
      EmptyLog(c);
    } else {
      var before, e := log[..|log| - 1], log[|log| - 1];
      assert log == before + [e];
      StateSummarizesTheLog(c, before);
      var st := Replay(InitialState(c), before);
      CountsStep(st, before, e);
      ListsStep(st, before, e);
      FurthestStep(st, before, e);
      SeesStep(st, before, e);
      BarsStep(st, before, e);
      StandsStep(st, before, e);
      TriedStep(st, before, e);
      OwesStep(st, before, e);
      OrderStep(st, before, e);
      IdentityOfApply(st, e);
    }
  }

  lemma EmptyLog(c: Setup)
    ensures Summarized(InitialState(c), [])
  {
  }

  lemma IdentityOfApply(st: RuntimeState, e: Event)
    ensures Apply(st, e).runId == st.runId && Apply(st, e).startedAt == st.startedAt
  {
  }

  lemma {:induction false} VisitsAreCounted(c: Setup, log: seq<Event>, fingerprint: string)
    ensures Replay(InitialState(c), log).Visits(fingerprint) == Visits(log, fingerprint)
  {
    hide Apply;
    if log != [] {
      var before, e := log[..|log| - 1], log[|log| - 1];
      assert log == before + [e];
      VisitsAreCounted(c, before, fingerprint);
      VisitsStep(Replay(InitialState(c), before), before, e, fingerprint);
    }
  }

  /** The task updates of a log, in order. */
  ghost function Updates(log: seq<Event>): seq<TaskUpdate> {
    if log == [] then []
    else Updates(log[..|log| - 1]) + match log[|log| - 1].body case TaskUpdated(u) => [u] case _ => []
  }

  /** The last update that names a goal decides it, otherwise the task the run began with. */
  ghost function GoalAfter(goal: string, updates: seq<TaskUpdate>): string {
    if updates == [] then goal
    else if updates[|updates| - 1].goal.Some? then updates[|updates| - 1].goal.value
    else GoalAfter(goal, updates[..|updates| - 1])
  }

  /** The last update that sets an input decides it. */
  ghost function InputAfter(inputs: Fields, updates: seq<TaskUpdate>, key: string): Option<Json> {
    if updates == [] then if key in inputs then Some(inputs[key]) else None
    else if key in updates[|updates| - 1].inputs then Some(updates[|updates| - 1].inputs[key])
    else InputAfter(inputs, updates[..|updates| - 1], key)
  }

  const CONSTRAINTS: TaskUpdate -> seq<string> := (u: TaskUpdate) => u.constraints
  const CRITERIA: TaskUpdate -> seq<string> := (u: TaskUpdate) => u.successCriteria
  const GRANTS: TaskUpdate -> seq<string> := (u: TaskUpdate) => u.authorization

  /** The last update with a non-empty list decides it: no update can empty a list. */
  ghost function ListAfter(given: seq<string>, updates: seq<TaskUpdate>,
                           which: TaskUpdate -> seq<string>): seq<string> {
    if updates == [] then given
    else
      var latest := which(updates[|updates| - 1]);
      if latest != [] then latest else ListAfter(given, updates[..|updates| - 1], which)
  }

  lemma TaskEffect(st: RuntimeState, e: Event)
    ensures Apply(st, e).task == if e.body.TaskUpdated? then UpdateTask(st.task, e.body.update) else st.task
  {
  }

  /** Only task updates change the task, and every part of it is what the updates say. */
  lemma {:induction false} TaskIsWhatTheUpdatesSay(c: Setup, log: seq<Event>, key: string)
    ensures var task, updates := Replay(InitialState(c), log).task, Updates(log);
            && task.goal == GoalAfter(c.task.goal, updates)
            && (if key in task.inputs then Some(task.inputs[key]) else None) == InputAfter(c.task.inputs, updates, key)
            && task.constraints == ListAfter(c.task.constraints, updates, CONSTRAINTS)
            && task.successCriteria == ListAfter(c.task.successCriteria, updates, CRITERIA)
            && task.authorization == ListAfter(c.task.authorization, updates, GRANTS)
  {
    hide Apply;
    if log != [] {
      var before, e := log[..|log| - 1], log[|log| - 1];
      TaskIsWhatTheUpdatesSay(c, before, key);
      TaskEffect(Replay(InitialState(c), before), e);
      if e.body.TaskUpdated? {
        var updates := Updates(log);
        assert updates == Updates(before) + [e.body.update];
        assert updates[..|updates| - 1] == Updates(before);
      } else {
        assert Updates(log) == Updates(before);
      }
    }
  }

  /** What the fingerprint covers. */
  ghost function Content(c: Setup, st: RuntimeState, f: Frame): Stability {
    Stability(st.Revision(), st.task.goal, st.task.inputs, Views(f.candidates), c.config.controls, st.deadActions)
  }

  /** Alike in everything the fingerprint covers: idempotency and the basis observation do not enter. */
  ghost predicate SameOption(x: Candidate, y: Candidate) {
    x == y.(idempotency := x.idempotency, observation := x.observation)
  }

  lemma SameViews(a: seq<Candidate>, b: seq<Candidate>)
    ensures Views(a) == Views(b) <==> |a| == |b| && forall i | 0 <= i < |a| :: SameOption(a[i], b[i])
  {
    assert |Views(a)| == |a| && |Views(b)| == |b|;
    if Views(a) == Views(b) {
      forall i | 0 <= i < |a| ensures SameOption(a[i], b[i]) { assert Views(a)[i] == Views(b)[i]; }
    }
  }

  /** Two frames have the same fingerprint when they offer the same options on the same revision for
      the same goal, inputs and exclusions: history, counters and version do not enter. If the hash
      does not collide on the two, only then. */
  lemma FingerprintIsTheContent(c: Setup, a: RuntimeState, b: RuntimeState, x: seq<Candidate>, y: seq<Candidate>,
                                n: nat, m: nat)
    requires BuildFrame(c, a, x, n).Some? && BuildFrame(c, b, y, m).Some?
    requires var p, q := Content(c, a, BuildFrame(c, a, x, n).value), Content(c, b, BuildFrame(c, b, y, m).value);
             c.hash(p) == c.hash(q) ==> p == q
    ensures var f, g := BuildFrame(c, a, x, n).value, BuildFrame(c, b, y, m).value;
            (f.fingerprint == g.fingerprint) == (
              && a.Revision() == b.Revision() && a.task.goal == b.task.goal && a.task.inputs == b.task.inputs
              && a.deadActions == b.deadActions && |f.candidates| == |g.candidates|
              && forall i | 0 <= i < |f.candidates| :: SameOption(f.candidates[i], g.candidates[i]))
  {
    SameViews(BuildFrame(c, a, x, n).value.candidates, BuildFrame(c, b, y, m).value.candidates);
  }

  /** An event after which the run stands where it stood: no task update, no turn of the revision and
      no exclusion that was not there. Decisions, receipts, frames, verdicts and resumes are all free. */
  ghost predicate Idle(log: seq<Event>, i: nat, dead: set<string>) {
    && i < |log| && !log[i].body.TaskUpdated? && !Turns(log, i)
    && (log[i].body.GuardRaised? ==> log[i].body.outcome.deadKeys <= dead)
  }

  lemma {:induction false} IdleKeepsContent(c: Setup, log: seq<Event>, more: seq<Event>)
    requires forall i: nat | |log| <= i < |log| + |more| ::
               Idle(log + more, i, Replay(InitialState(c), log).deadActions)
    ensures var a, b := Replay(InitialState(c), log), Replay(InitialState(c), log + more);
            b.Revision() == a.Revision() && b.task == a.task && b.deadActions == a.deadActions
  {
    hide Apply, Turns, Sees, BuildFrame;
    if more == [] {
      assert log + more == log;
    } else {
      var before, e, all := more[..|more| - 1], more[|more| - 1], log + more;
      var shorter, last := log + before, |log| + |before|;
      assert all == shorter + [e] && all[..|all| - 1] == shorter;
      var a, b := Replay(InitialState(c), log), Replay(InitialState(c), shorter);
      forall i: nat | |log| <= i < last ensures Idle(shorter, i, a.deadActions) {
        assert Idle(all, i, a.deadActions);
        TurnsAppend(shorter, e, i);
      }
      IdleKeepsContent(c, log, before);
      assert Idle(all, last, a.deadActions);
      SeesTheLog(c, shorter);
      TurnsNow(b, shorter, e);
      TaskEffect(b, e);
      DeadOfApply(b, e);
      SightOfApply(b, e);
    }
  }

  lemma SeesTheLog(c: Setup, log: seq<Event>)
    ensures Sees(Replay(InitialState(c), log), log)
  {
    hide Replay, Sees, Counts, Lists, Furthest, Bars, Stands, Tried, Owes, InOrder;
    StateSummarizesTheLog(c, log);
  }

  /** Whatever was decided, tried and recorded in between, an unchanged situation that offers the same
      candidates again gets the fingerprint it had: this is what the visit limit counts. */
  lemma ReturningSituationIsRecognized(c: Setup, log: seq<Event>, more: seq<Event>, x: seq<Candidate>, n: nat, m: nat)
    requires forall i: nat | |log| <= i < |log| + |more| ::
               Idle(log + more, i, Replay(InitialState(c), log).deadActions)
    requires Replay(InitialState(c), log).UnresolvedKeys() == Replay(InitialState(c), log + more).UnresolvedKeys()
    requires BuildFrame(c, Replay(InitialState(c), log), x, n).Some?
    requires m <= c.config.frameCharBudget
    ensures BuildFrame(c, Replay(InitialState(c), log + more), x, m).Some?
    ensures BuildFrame(c, Replay(InitialState(c), log + more), x, m).value.fingerprint
            == BuildFrame(c, Replay(InitialState(c), log), x, n).value.fingerprint
  {
    hide Replay, Idle;
    IdleKeepsContent(c, log, more);
  }
}
