/** A step without control positions: what is recorded next, judged from the log alone and from what the
    world answers (core/loop.py:170-400). */
module KernelGrammar {
  import opened JsonModel
  import opened KernelTypes
  import opened KernelReduce
  import opened KernelGuards
  import opened KernelMachine
  import opened KernelWorld
  import opened KernelLedger

  // ---- where things stand in the log of a step ----

  /** The last offer. Everything a step records from there on has its place: the observation stands before
      the offer, the frame, the decision and the intent after it. */
  function Offer(log: seq<Event>): int {
    if log == [] then -1 else if log[|log| - 1].body.Offered? then |log| - 1 else Offer(log[..|log| - 1])
  }

  lemma OfferAppend(log: seq<Event>, e: Event)
    ensures Offer(log + [e]) == if e.body.Offered? then |log| else Offer(log)
    ensures -1 <= Offer(log) < |log|
  {
    assert (log + [e])[..|log|] == log;
    OfferInside(log);
  }

  lemma {:induction false} OfferInside(log: seq<Event>)
    ensures -1 <= Offer(log) < |log|
    ensures Offer(log) >= 0 ==> log[Offer(log)].body.Offered?
  {
    if log != [] && !log[|log| - 1].body.Offered? { OfferInside(log[..|log| - 1]); }
  }

  function BodyAt(log: seq<Event>, i: int): Payload { if 0 <= i < |log| then log[i].body else RunStarted }

  /** The revision the step started from. */
  function SeenAt(log: seq<Event>): string {
    match BodyAt(log, Offer(log) - 1) case Observed(o, _) => o.revision case _ => ""
  }

  function FrameAt(log: seq<Event>): FrameId {
    match BodyAt(log, Offer(log) + 1) case FrameBuilt(id, _, _, _) => id case _ => FrameId(0, "")
  }

  /** The option of the offer that an id stands for. */
  function OptionOf(inp: StepInput, id: string): Option<Candidate> {
    Frame.FindIn(Normalize(inp.candidates, 1), id)
  }

  /** The option that was decided on. */
  function Choice(inp: StepInput, log: seq<Event>): Option<Candidate> {
    match BodyAt(log, Offer(log) + 2)
    case DecisionMade(d) => if d.candidateId.Some? then OptionOf(inp, d.candidateId.value) else None
    case _ => None
  }

  function Idempotent(inp: StepInput, log: seq<Event>): Idempotency {
    if Choice(inp, log).Some? then Choice(inp, log).value.idempotency else NoGuarantee
  }

  // ---- what comes next ----

  /** An event that is due, with its step. */
  type Saying = (int, Payload)

  function Now(st: RuntimeState, b: Payload): Option<Saying> { Some((st.step as int, b)) }

  /** The world is observed, in a new step. */
  function Look(st: RuntimeState, inp: StepInput): Option<Saying> {
    match inp.observe
    case None => Some((st.step + 1, ObserveFailed))
    case Some(o) =>
      Some((st.step + 1, Observed(o, st.observation.None? || st.observation.value.revision != o.revision)))
  }

  predicate OutOfTime(c: Setup, st: RuntimeState, now: real) {
    match c.config.maxSeconds case None => false case Some(limit) => limit != 0.0 && now > st.startedAt + limit
  }

  /** Limits first, then an open operation, and only then the world. */
  function AtStart(c: Setup, st: RuntimeState, inp: StepInput): Option<Saying> {
    if st.status == Succeeded || st.status == Failed || st.status == Cancelled then None
    else if c.config.maxSteps != 0 && st.step >= c.config.maxSteps then Now(st, RunFinished(Failed, Some(MaxSteps)))
    else if OutOfTime(c, st, inp.now) then Now(st, RunFinished(Failed, Some(BudgetExhausted)))
    else if st.unresolved == [] then Look(st, inp)
    else
      match inp.Query(0)
      case QueryFailed => Now(st, ErrorRaised(QueryStage))
      case QueryReceipt(Completed) => Now(st, Resolved(st, Completed))
      case QueryReceipt(Rejected) => Now(st, Resolved(st, Rejected))
      case _ => Now(st, RunSuspended(AwaitingResult))
  }

  function Resolved(st: RuntimeState, status: ReceiptStatus): Payload
    requires st.unresolved != []
  {
    OperationResolved(st.unresolved[0].operationId, st.unresolved[0].key, status)
  }

  /** The frame may have been built too often; otherwise the policy is asked. */
  function AfterFrame(c: Setup, st: RuntimeState, inp: StepInput, fingerprint: string): Option<Saying> {
    if st.Visits(fingerprint) >= c.config.maxFrameVisits then Now(st, GuardRaised(GuardOutcome(Cycle, {}, true)))
    else if inp.decision.None? then Now(st, ErrorRaised(PolicyStage))
    else Now(st, DecisionMade(inp.decision.value))
  }

  /** Why an option may not run. */
  predicate Barred(st: RuntimeState, x: Candidate, inp: StepInput) {
    || x.key in st.deadActions
    || (exists u | u in st.unresolved :: u.key == x.key)
    || (st.task.authorization != [] && x.capability !in st.task.authorization)
    || (x.observation.Some? && x.observation.value != st.Revision())
    || st.observationStale || inp.environmentVeto || inp.hostVeto
  }

  predicate Tried(st: RuntimeState, key: string) {
    exists a | a in st.attempts :: a.observation == st.Revision() && a.key == key
  }

  function AfterDecision(c: Setup, st: RuntimeState, inp: StepInput, frame: FrameId, d: Decision)
    : Option<Saying>
  {
    if d.frameId != frame || (d.candidateId.Some? && d.control.Some?) || (d.candidateId.None? && d.control.None?) then
      Now(st, DecisionRejected(d.candidateId))
    else if d.control.Some? then
      if d.control.value !in c.config.controls then Now(st, DecisionRejected(None))
      else Now(st, StepRecorded(StepRecord(st.step, frame, st.Revision(), None, d.control, None, false)))
    else
      var x := OptionOf(inp, d.candidateId.value);
      if x.None? || Barred(st, x.value, inp) then Now(st, DecisionRejected(d.candidateId))
      else if Tried(st, x.value.key) then Now(st, GuardRaised(GuardOutcome(Repeat, {x.value.key}, true)))
      else
        Now(st, IntentRecorded(Minted(st.runId, st.step, c.operationHash(x.value.key, x.value.args)), x.value.key,
                               x.value.args, x.value.effect))
  }

  /** The receipt says what the environment said; a crash leaves only the error. */
  function AfterIntent(st: RuntimeState, inp: StepInput, log: seq<Event>, op: OperationId, key: string, args: Fields)
    : Option<Saying>
  {
    match inp.execute
    case ExecRejected => Now(st, ReceiptRecorded(op, key, args, Idempotent(inp, log), Rejected))
    case ExecCrashed => Now(st, ErrorRaised(ExecuteStage))
    case ExecReceipt(id, status) => Now(st, ReceiptRecorded(id, key, args, Idempotent(inp, log), status))
  }

  function AfterCrash(st: RuntimeState, inp: StepInput, log: seq<Event>): Option<Saying> {
    match BodyAt(log, |log| - 2)
    case IntentRecorded(op, key, args, _) => Now(st, ReceiptRecorded(op, key, args, Idempotent(inp, log), Unknown))
    case _ => None
  }

  function Closing(st: RuntimeState, log: seq<Event>, receipt: Payload, changed: bool): Option<Saying> {
    if !receipt.ReceiptRecorded? then None
    else Now(st, StepRecorded(StepRecord(st.step, FrameAt(log), SeenAt(log), Some(receipt.key), None,
                                         Some(receipt.status), changed)))
  }

  /** After a mutating action with nothing open the world is observed again. */
  predicate LooksAgain(c: Setup, st: RuntimeState, log: seq<Event>) {
    && c.config.postObserve && st.unresolved == []
    && match BodyAt(log, Offer(log) + 3) case IntentRecorded(_, _, _, effect) => effect != ReadOnly case _ => false
  }

  function AfterReceipt(c: Setup, st: RuntimeState, inp: StepInput, log: seq<Event>, receipt: Payload)
    : Option<Saying>
  {
    if !LooksAgain(c, st, log) then Closing(st, log, receipt, false)
    else
      match inp.observeAfter
      case None => Now(st, ObserveFailed)
      case Some(after) => Now(st, Observed(after, after.revision != SeenAt(log)))
  }

  /** A completed action after which nothing is seen to have changed made no progress. */
  function AfterLook(st: RuntimeState, log: seq<Event>, receipt: Payload, changed: bool): Option<Saying> {
    if !receipt.ReceiptRecorded? then None
    else if receipt.status == Completed && !changed then
      Now(st, GuardRaised(GuardOutcome(NoProgress, {receipt.key}, true)))
    else Closing(st, log, receipt, changed)
  }

  function AfterRecord(c: Setup, st: RuntimeState, inp: StepInput, log: seq<Event>, record: StepRecord)
    : Option<Saying>
  {
    match record.control
    case Some(Refresh) => None
    case Some(Blocked) => Now(st, RunSuspended(PolicyBlocked))
    case Some(Wait) => Now(st, RunSuspended(AwaitingResult))
    case Some(RequestFinish) =>
      Now(st, Verified(if c.hasVerifier && inp.verdict.Some? then inp.verdict.value else Undecided))
    case None =>
      if BodyAt(log, |log| - 2).GuardRaised? && st.guardEscalations >= c.config.maxGuardEscalations
      then Now(st, RunFinished(Failed, Some(NoProgressMade))) else None
  }

  function AfterGuard(c: Setup, st: RuntimeState, log: seq<Event>, kind: GuardKind): Option<Saying> {
    match kind
    case Cycle => Now(st, RunSuspended(AwaitingEvidence))
    case Repeat =>
      if st.guardEscalations >= c.config.maxGuardEscalations then Now(st, RunFinished(Failed, Some(CycleDetected)))
      else None
    case NoProgress => Closing(st, log, BodyAt(log, |log| - 3), false)
    case NoGuard => None
  }

  function AfterVerdict(c: Setup, st: RuntimeState, verdict: Verdict): Option<Saying> {
    match verdict
    case Satisfied => Now(st, RunFinished(Succeeded, None))
    case Undecided => Now(st, RunSuspended(AwaitingEvidence))
    case Unsatisfied =>
      if |st.verifications| >= c.config.maxVerifications then Now(st, RunFinished(Failed, Some(VerificationExhausted)))
      else None
  }

  /** What a step that began after `k` events records next, or `None` when it is over. */
  function Due(c: Setup, inp: StepInput, st: RuntimeState, log: seq<Event>, k: nat): Option<Saying> {
    if |log| <= k then AtStart(c, st, inp)
    else
      var second := k <= |log| - 2 && log[|log| - 2].body.ReceiptRecorded?;
      match log[|log| - 1].body
      case ErrorRaised(QueryStage) => Now(st, RunSuspended(AwaitingResult))
      case ErrorRaised(PolicyStage) => Now(st, RunFinished(Failed, Some(PolicyError)))
      case ErrorRaised(ExecuteStage) => AfterCrash(st, inp, log)
      case OperationResolved(_, _, _) => Look(st, inp)
      case ObserveFailed =>
        if second then AfterLook(st, log, log[|log| - 2].body, false) else Now(st, RunSuspended(AwaitingEvidence))
      case Observed(_, changed) =>
        if second then AfterLook(st, log, log[|log| - 2].body, changed) else Now(st, Offered(Keys(inp.candidates)))
      case Offered(_) =>
        (match BuildFrame(c, st, inp.candidates, inp.frameChars)
         case None => Now(st, RunFinished(Failed, Some(BudgetExhausted)))
         case Some(f) =>
           Now(st, FrameBuilt(f.frameId, f.fingerprint, |f.candidates|, |f.candidates| + |f.controls|)))
      case FrameBuilt(_, fingerprint, _, _) => AfterFrame(c, st, inp, fingerprint)
      case DecisionMade(d) => AfterDecision(c, st, inp, FrameAt(log), d)
      case IntentRecorded(op, key, args, _) => AfterIntent(st, inp, log, op, key, args)
      case ReceiptRecorded(_, _, _, _, _) => AfterReceipt(c, st, inp, log, log[|log| - 1].body)
      case GuardRaised(g) => AfterGuard(c, st, log, g.kind)
      case StepRecorded(record) => AfterRecord(c, st, inp, log, record)
      case Verified(verdict) => AfterVerdict(c, st, verdict)
      case _ => None
  }

  // ---- what the machine records next ----

  function Upcoming(c: Setup, st: RuntimeState, pc: Pc, inp: StepInput): Option<Saying>
    decreases pc.Begin?, KernelMachine.Rank(pc)
  {
    var move := Next(c, st, pc, inp);
    NextDescends(c, st, pc, inp);
    match move
    case Stop => None
    case Go(next) => Upcoming(c, st, next, inp)
    case Say(step, body, _) => Some((step, body))
  }

  /** The table is laid: observation, offer and frame of the step stand where they belong. */
  ghost predicate Laid(log: seq<Event>, k: nat, v: View) {
    var o := Offer(log);
    && k < o && o + 1 < |log|
    && log[o - 1].body.Observed? && log[o - 1].body.observation == v.seen
    && log[o + 1].body.FrameBuilt? && log[o + 1].body.frameId == v.frame.frameId
  }

  /** The frame offers what the state allows. */
  ghost predicate Framed(c: Setup, st: RuntimeState, inp: StepInput, f: Frame) {
    && f.candidates == Offerable(Normalize(inp.candidates, 1), st.UnresolvedKeys(), st.deadActions)
    && f.controls == c.config.controls
  }

  /** The decision and the intent of the action under way. */
  ghost predicate Chosen(inp: StepInput, log: seq<Event>, k: nat, v: View, cand: Candidate) {
    var o := Offer(log);
    && Laid(log, k, v) && o + 3 < |log|
    && Choice(inp, log) == Some(cand)
    && log[o + 3].body.IntentRecorded? && log[o + 3].body.effect == cand.effect
  }

  ghost predicate IsReceipt(b: Payload, cand: Candidate, status: ReceiptStatus) {
    b.ReceiptRecorded? && b.key == cand.key && b.status == status
  }

  ghost predicate EndsWith(log: seq<Event>, k: nat, back: nat) { k + back <= |log| }

  /** What the log looks like at each control position. */
  ghost predicate Scene(c: Setup, inp: StepInput, m: Machine, k: nat) {
    var log, n := m.log, |m.log|;
    match m.pc
    case Begin => n == k
    case Resolving(ops, j) =>
      if j == 0 then n == k && m.st.unresolved == ops
      else
        || (n == k && m.st.unresolved == ops)
        || (n > k && log[n - 1].body == ErrorRaised(QueryStage) && m.st.unresolved == ops)
        || (n > k && log[n - 1].body.OperationResolved? && m.st.unresolved == [])
    case Observing => n == k || (n > k && log[n - 1].body.OperationResolved?)
    case Offering(o) =>
      && n > k && log[n - 1].body.Observed? && log[n - 1].body.observation == o
      && (k <= n - 2 ==> !log[n - 2].body.ReceiptRecorded?)
    case Building(o) =>
      n >= k + 2 && log[n - 1].body.Offered? && log[n - 2].body.Observed? && log[n - 2].body.observation == o
    case Assessing(o, f) => Laid(log, k, View(o, f, QUIET)) && Offer(log) == n - 2 && Framed(c, m.st, inp, f)
    case FrameGuarded(_) => n > k && log[n - 1].body == GuardRaised(GuardOutcome(Cycle, {}, true))
    case Deciding(v) => Laid(log, k, v) && Offer(log) == n - 2 && Framed(c, m.st, inp, v.frame)
    case Validating(v, d) =>
      Laid(log, k, v) && Offer(log) == n - 3 && log[n - 1].body == DecisionMade(d) && Framed(c, m.st, inp, v.frame)
    case Executing(v, cand, op) =>
      && Chosen(inp, log, k, v, cand) && Offer(log) == n - 4
      && log[n - 1].body == IntentRecorded(op, cand.key, cand.args, cand.effect)
    case Crashed(v, cand, op) =>
      && Chosen(inp, log, k, v, cand) && Offer(log) == n - 5
      && log[n - 2].body == IntentRecorded(op, cand.key, cand.args, cand.effect)
      && log[n - 1].body == ErrorRaised(ExecuteStage)
    case PostObserving(v, cand, status) =>
      Chosen(inp, log, k, v, cand) && Offer(log) <= n - 5 && IsReceipt(log[n - 1].body, cand, status)
    case Accounting(v, cand, status, changed) =>
      && Chosen(inp, log, k, v, cand)
      && (|| (Offer(log) <= n - 5 && IsReceipt(log[n - 1].body, cand, status) && !changed && !Accounts(c, m.st, cand))
          || (Offer(log) <= n - 6 && IsReceipt(log[n - 2].body, cand, status) && Accounts(c, m.st, cand)
              && (|| (log[n - 1].body == ObserveFailed && !changed)
                  || (log[n - 1].body.Observed? && log[n - 1].body.changed == changed))))
    case Recording(v, cand, status, changed, combined) =>
      && Chosen(inp, log, k, v, cand) && Offer(log) <= n - 5
      && (if combined.kind.NoGuard? then !log[n - 1].body.GuardRaised?
          else combined.kind == NoProgress && log[n - 1].body.GuardRaised?)
    case _ => true
  }

  ghost predicate Placed(c: Setup, inp: StepInput, m: Machine, k: nat) {
    && k <= |m.log|
    && Due(c, inp, m.st, m.log, k) == Upcoming(c, m.st, m.pc, inp)
    && Scene(c, inp, m, k)
  }

  // ---- one move keeps it ----

  lemma UpcomingGo(c: Setup, st: RuntimeState, pc: Pc, inp: StepInput)
    ensures var move := Next(c, st, pc, inp);
            && (move.Go? ==> Upcoming(c, st, pc, inp) == Upcoming(c, st, move.pc, inp))
            && (move.Say? ==> Upcoming(c, st, pc, inp) == Some((move.step, move.body)))
            && (move.Stop? ==> Upcoming(c, st, pc, inp) == None)
  {
    hide Next;
  }

  lemma UpcomingEnd(c: Setup, st: RuntimeState, inp: StepInput, reason: StopReason)
    ensures Upcoming(c, st, Idle, inp) == None
    ensures Upcoming(c, st, Suspending(reason), inp) == Now(st, RunSuspended(reason))
    ensures Upcoming(c, st, Failing(reason), inp) == Now(st, RunFinished(Failed, Some(reason)))
  {
    hide BuildFrame, Refused, Combine, AssessEffect, AssessAttempts, AssessFrame, Attempted, Mint, OverBudget, Accounts;
  }

  lemma BeginIsPlaced(c: Setup, inp: StepInput, m: Machine, k: nat)
    requires m.pc.Begin? && |m.log| == k && |m.st.unresolved| <= 1
    ensures Placed(c, inp, m, k)
  {
    hide Upcoming, BuildFrame, Refused, Combine, AssessEffect, AssessAttempts, AssessFrame, Mint, Accounts;
    UpcomingGo(c, m.st, Begin, inp);
    UpcomingGo(c, m.st, Idle, inp);
    UpcomingGo(c, m.st, Observing, inp);
    UpcomingGo(c, m.st, Resolving(m.st.unresolved, 0), inp);
    UpcomingGo(c, m.st, Resolving(m.st.unresolved, 1), inp);
    UpcomingEnd(c, m.st, inp, AwaitingResult);
  }

  /** A silent move changes nothing that is due. */
  lemma GoKeepsDue(c: Setup, inp: StepInput, m: Machine, k: nat)
    requires Placed(c, inp, m, k) && Next(c, m.st, m.pc, inp).Go?
    ensures var n := Make(m, Next(c, m.st, m.pc, inp)); n.st == m.st && n.log == m.log
    ensures var n := Make(m, Next(c, m.st, m.pc, inp)); Due(c, inp, n.st, n.log, k) == Upcoming(c, n.st, n.pc, inp)
  {
    hide Next, Scene, Due;
    UpcomingGo(c, m.st, m.pc, inp);
  }

  lemma StartPlaces(c: Setup, inp: StepInput, m: Machine, k: nat)
    requires m.pc.Begin? && Placed(c, inp, m, k)
    ensures Placed(c, inp, Make(m, Next(c, m.st, m.pc, inp)), k)
  {
    hide Upcoming, BuildFrame, Refused, Combine, AssessEffect, AssessAttempts, AssessFrame, Mint, Accounts, Apply;
    var move := Next(c, m.st, m.pc, inp);
    if move.Go? { GoKeepsDue(c, inp, m, k); } else { UpcomingEnd(c, Make(m, move).st, inp, MaxSteps); }
  }

  lemma QueryPlaces(c: Setup, inp: StepInput, m: Machine, k: nat)
    requires m.pc.Resolving? && |m.pc.operations| == 1 && Placed(c, inp, m, k)
    ensures Placed(c, inp, Make(m, Next(c, m.st, m.pc, inp)), k)
  {
    hide Upcoming, Due, BuildFrame, Refused, Combine, AssessEffect, AssessAttempts, AssessFrame, Mint, Accounts, Apply;
    var move := Next(c, m.st, m.pc, inp);
    if move.Go? {
      GoKeepsDue(c, inp, m, k);
    } else {
      var e, n := Event(|m.log| + 1, move.step, move.body), Make(m, move);
      UnresolvedEffect(m.st, e);
      DueAfter(c, inp, n.st, m.log, e, k);
      UpcomingGo(c, n.st, n.pc, inp);
      UpcomingEnd(c, n.st, inp, AwaitingResult);
      UpcomingGo(c, n.st, Observing, inp);
    }
  }

  lemma ObservePlaces(c: Setup, inp: StepInput, m: Machine, k: nat)
    requires m.pc.Observing? && Placed(c, inp, m, k)
    ensures Placed(c, inp, Make(m, Next(c, m.st, m.pc, inp)), k)
  {
    hide Upcoming, BuildFrame, Refused, Combine, AssessEffect, AssessAttempts, AssessFrame, Mint, Accounts, Apply;
    var n := Make(m, Next(c, m.st, m.pc, inp));
    UpcomingGo(c, n.st, n.pc, inp);
    UpcomingEnd(c, n.st, inp, AwaitingEvidence);
  }

  /** Suspensions and failures end the step. */
  lemma EndPlaces(c: Setup, inp: StepInput, m: Machine, k: nat)
    requires (m.pc.Suspending? || m.pc.Failing? || m.pc.Idle?) && Placed(c, inp, m, k)
    ensures Placed(c, inp, Make(m, Next(c, m.st, m.pc, inp)), k)
  {
    hide Upcoming, BuildFrame, Refused, Combine, AssessEffect, AssessAttempts, AssessFrame, Mint, Accounts, Apply;
    var n := Make(m, Next(c, m.st, m.pc, inp));
    UpcomingEnd(c, n.st, inp, AwaitingResult);
  }

  lemma OfferPlaces(c: Setup, inp: StepInput, m: Machine, k: nat)
    requires m.pc.Offering? && Placed(c, inp, m, k)
    ensures Placed(c, inp, Make(m, Next(c, m.st, m.pc, inp)), k)
  {
    hide Upcoming, BuildFrame, Refused, Combine, AssessEffect, AssessAttempts, AssessFrame, Mint, Accounts, Apply;
    var n := Make(m, Next(c, m.st, m.pc, inp));
    UpcomingGo(c, n.st, n.pc, inp);
    UpcomingEnd(c, n.st, inp, BudgetExhausted);
  }

  /** Frames and decisions change nothing that decides which options are left. */
  lemma QuietApply(st: RuntimeState, e: Event)
    requires e.body.FrameBuilt? || e.body.DecisionMade?
    ensures var n := Apply(st, e);
            n.deadActions == st.deadActions && n.unresolved == st.unresolved && n.observation == st.observation
  {
  }

  /** What is due after one more event. */
  lemma DueAfter(c: Setup, inp: StepInput, st: RuntimeState, log: seq<Event>, e: Event, k: nat)
    requires k <= |log|
    ensures var longer := log + [e];
            Due(c, inp, st, longer, k) ==
              match e.body
              case FrameBuilt(_, fingerprint, _, _) => AfterFrame(c, st, inp, fingerprint)
              case DecisionMade(d) => AfterDecision(c, st, inp, FrameAt(longer), d)
              case IntentRecorded(op, key, args, _) => AfterIntent(st, inp, longer, op, key, args)
              case ReceiptRecorded(_, _, _, _, _) => AfterReceipt(c, st, inp, longer, e.body)
              case GuardRaised(g) => AfterGuard(c, st, longer, g.kind)
              case StepRecorded(record) => AfterRecord(c, st, inp, longer, record)
              case Verified(verdict) => AfterVerdict(c, st, verdict)
              case ErrorRaised(QueryStage) => Now(st, RunSuspended(AwaitingResult))
              case ErrorRaised(PolicyStage) => Now(st, RunFinished(Failed, Some(PolicyError)))
              case ErrorRaised(ExecuteStage) => AfterCrash(st, inp, longer)
              case OperationResolved(_, _, _) => Look(st, inp)
              case DecisionRejected(_) => None
              case RunSuspended(_) => None
              case RunFinished(_, _) => None
              case _ => Due(c, inp, st, longer, k)
  {
    hide AfterFrame, AfterDecision, AfterIntent, AfterReceipt, AfterGuard, AfterRecord, AfterVerdict, AtStart, Look,
         BuildFrame;
    assert (log + [e])[|log|] == e;
  }

  lemma NextBuilding(c: Setup, st: RuntimeState, o: Observation, inp: StepInput)
    ensures Next(c, st, Building(o), inp)
         == match BuildFrame(c, st, inp.candidates, inp.frameChars)
            case None => Go(Failing(BudgetExhausted))
            case Some(f) => Say(st.step, FrameBuilt(f.frameId, f.fingerprint, |f.candidates|,
                                                    |f.candidates| + |f.controls|), Assessing(o, f))
  {
    hide BuildFrame;
  }

  lemma UpcomingAssessing(c: Setup, st: RuntimeState, o: Observation, f: Frame, inp: StepInput)
    ensures Upcoming(c, st, Assessing(o, f), inp) == AfterFrame(c, st, inp, f.fingerprint)
  {
    hide Upcoming, BuildFrame, Refused, Combine, AssessEffect, AssessAttempts, Mint, Accounts;
    UpcomingGo(c, st, Assessing(o, f), inp);
    UpcomingGo(c, st, Deciding(View(o, f, QUIET)), inp);
  }

  lemma FramePlaces(c: Setup, inp: StepInput, m: Machine, k: nat)
    requires m.pc.Building? && Placed(c, inp, m, k)
    ensures Placed(c, inp, Make(m, Next(c, m.st, m.pc, inp)), k)
  {
    hide Upcoming, Next, Due, Apply, BuildFrame, Offer, Offerable, Normalize, AfterFrame;
    NextBuilding(c, m.st, m.pc.seen, inp);
    var move := Next(c, m.st, m.pc, inp);
    if move.Go? {
      GoKeepsDue(c, inp, m, k);
    } else {
      var e, n := Event(|m.log| + 1, move.step, move.body), Make(m, move);
      FrameIs(c, m.st, inp.candidates, inp.frameChars,
              Offerable(Normalize(inp.candidates, 1), m.st.UnresolvedKeys(), m.st.deadActions));
      OfferEndsAt(m.log);
      OfferAppend(m.log, e);
      QuietApply(m.st, e);
      DueAfter(c, inp, n.st, m.log, e, k);
      UpcomingAssessing(c, n.st, n.pc.seen, n.pc.frame, inp);
    }
  }

  lemma OfferEndsAt(log: seq<Event>)
    requires log != [] && log[|log| - 1].body.Offered?
    ensures Offer(log) == |log| - 1
  {
  }

  lemma AssessmentPlaces(c: Setup, inp: StepInput, m: Machine, k: nat)
    requires (m.pc.Assessing? || m.pc.FrameGuarded?) && Bound(m.st, m.pc) && Placed(c, inp, m, k)
    ensures Placed(c, inp, Make(m, Next(c, m.st, m.pc, inp)), k)
  {
    hide Upcoming, Due, Refused, Combine, AssessEffect, AssessAttempts, Mint, Accounts, Apply, BuildFrame, Laid, Framed;
    var move := Next(c, m.st, m.pc, inp);
    if move.Go? {
      GoKeepsDue(c, inp, m, k);
    } else {
      var e, n := Event(|m.log| + 1, move.step, move.body), Make(m, move);
      DueAfter(c, inp, n.st, m.log, e, k);
      UpcomingGo(c, n.st, n.pc, inp);
      UpcomingEnd(c, n.st, inp, AwaitingEvidence);
    }
  }

  lemma NextDeciding(c: Setup, st: RuntimeState, v: View, inp: StepInput)
    ensures Next(c, st, Deciding(v), inp)
         == match inp.decision
            case None => Say(st.step, ErrorRaised(PolicyStage), Failing(PolicyError))
            case Some(d) => Say(st.step, DecisionMade(d), Validating(v, d))
  {
  }

  lemma DecisionPlaces(c: Setup, inp: StepInput, m: Machine, k: nat)
    requires m.pc.Deciding? && Bound(m.st, m.pc) && Placed(c, inp, m, k)
    ensures Placed(c, inp, Make(m, Next(c, m.st, m.pc, inp)), k)
  {
    hide Upcoming, Next, Due, Apply, Offer, AfterDecision, Offerable, Normalize;
    NextDeciding(c, m.st, m.pc.view, inp);
    var move := Next(c, m.st, m.pc, inp);
    var e, n := Event(|m.log| + 1, move.step, move.body), Make(m, move);
    OfferAppend(m.log, e);
    DueAfter(c, inp, n.st, m.log, e, k);
    if inp.decision.Some? {
      QuietApply(m.st, e);
      UpcomingGo(c, n.st, n.pc, inp);
      DecisionIsDue(c, inp, n.st, n.pc.view, n.pc.decision);
    } else {
      UpcomingEnd(c, n.st, inp, PolicyError);
    }
  }

  lemma CandidateIsDue(c: Setup, inp: StepInput, st: RuntimeState, v: View, d: Decision)
    requires InView(st, v) && Framed(c, st, inp, v.frame)
    requires d.frameId == v.frame.frameId && d.candidateId.Some? && d.control.None?
    ensures var move := match v.frame.Find(d.candidateId.value)
                        case None => Say(st.step, DecisionRejected(d.candidateId), Idle)
                        case Some(cand) => NextCandidate(c, st, v, cand, inp);
            move.Say? && AfterDecision(c, st, inp, v.frame.frameId, d) == Some((move.step, move.body))
  {
    hide Offerable, Normalize, Refused, Barred;
    var id := d.candidateId.value;
    NormalizedAreDistinct(inp.candidates);
    FindInOffer(Normalize(inp.candidates, 1), st.UnresolvedKeys(), st.deadActions, id);
    var x := OptionOf(inp, id);
    if x.Some? { RefusedIsBarred(st, x.value, inp); }
    hide Available;
  }

  /** Validation against the frame is validation against the offer. */
  lemma DecisionIsDue(c: Setup, inp: StepInput, st: RuntimeState, v: View, d: Decision)
    requires InView(st, v) && Framed(c, st, inp, v.frame)
    ensures var move := Next(c, st, Validating(v, d), inp);
            move.Say? && AfterDecision(c, st, inp, v.frame.frameId, d) == Some((move.step, move.body))
  {
    hide Offerable, Normalize, Refused, Barred, NextCandidate, OptionOf, Mint, BuildFrame, Combine, AssessEffect,
         AssessFrame, Accounts, ActionRecord;
    if d.frameId == v.frame.frameId && d.candidateId.Some? && d.control.None? {
      CandidateIsDue(c, inp, st, v, d);
      hide AfterDecision;
    }
  }

  lemma RefusedIsBarred(st: RuntimeState, x: Candidate, inp: StepInput)
    ensures Barred(st, x, inp)
       <==> !Available(x, st.UnresolvedKeys(), st.deadActions) || Refused(st, x, inp.environmentVeto, inp.hostVeto)
    ensures !Available(x, st.UnresolvedKeys(), st.deadActions) ==> Refused(st, x, inp.environmentVeto, inp.hostVeto)
  {
    assert x.key in st.UnresolvedKeys() <==> exists u | u in st.unresolved :: u.key == x.key;
  }

  /** The four ways in which a decision is met. */
  lemma NextValidating(c: Setup, st: RuntimeState, v: View, d: Decision, inp: StepInput)
    ensures var move := Next(c, st, Validating(v, d), inp);
            && move.Say? && move.step == st.step
            && match move.body
               case DecisionRejected(_) => move.pc == Idle
               case StepRecorded(record) =>
                 && record.control.Some?
                 && move.pc == (match record.control.value
                                case RequestFinish => Verifying
                                case Blocked => Suspending(PolicyBlocked)
                                case Wait => Suspending(AwaitingResult)
                                case Refresh => Idle)
               case GuardRaised(g) => g.kind == Repeat && move.pc == Escalating(Repeat)
               case IntentRecorded(op, key, args, effect) =>
                 && move.pc.Executing? && move.pc.view == v && move.pc.op == op
                 && move.body == IntentRecorded(op, move.pc.cand.key, move.pc.cand.args, move.pc.cand.effect)
                 && d.candidateId.Some? && v.frame.Find(d.candidateId.value) == Some(move.pc.cand)
               case _ => false
  {
    hide Refused, Attempted, Mint, BuildFrame, Combine, AssessEffect, AssessFrame;
  }

  lemma UpcomingAfterDecision(c: Setup, st: RuntimeState, inp: StepInput)
    ensures Upcoming(c, st, Verifying, inp)
         == Now(st, Verified(if c.hasVerifier && inp.verdict.Some? then inp.verdict.value else Undecided))
    ensures Upcoming(c, st, Escalating(Repeat), inp)
         == if st.guardEscalations >= c.config.maxGuardEscalations
            then Now(st, RunFinished(Failed, Some(CycleDetected))) else None
    ensures Upcoming(c, st, Escalating(NoProgress), inp)
         == if st.guardEscalations >= c.config.maxGuardEscalations
            then Now(st, RunFinished(Failed, Some(NoProgressMade))) else None
  {
    hide Upcoming, Refused, Combine, AssessEffect, AssessAttempts, Mint, Accounts, BuildFrame;
    UpcomingGo(c, st, Verifying, inp);
    UpcomingGo(c, st, Escalating(Repeat), inp);
    UpcomingGo(c, st, Escalating(NoProgress), inp);
    UpcomingEnd(c, st, inp, CycleDetected);
    UpcomingEnd(c, st, inp, NoProgressMade);
  }

  lemma ChoiceIs(inp: StepInput, log: seq<Event>, d: Decision)
    requires Offer(log) == |log| - 3 && |log| >= 3 && log[|log| - 1].body == DecisionMade(d) && d.candidateId.Some?
    ensures Choice(inp, log) == OptionOf(inp, d.candidateId.value)
  {
    hide Offer, OptionOf;
  }

  lemma FoundIsOption(c: Setup, inp: StepInput, st: RuntimeState, f: Frame, id: string, cand: Candidate)
    requires Framed(c, st, inp, f) && f.Find(id) == Some(cand)
    ensures OptionOf(inp, id) == Some(cand)
  {
    hide Offerable, Normalize;
    NormalizedAreDistinct(inp.candidates);
    FindInOffer(Normalize(inp.candidates, 1), st.UnresolvedKeys(), st.deadActions, id);
  }

  lemma BodyStays(log: seq<Event>, e: Event, i: int)
    requires i < |log|
    ensures BodyAt(log + [e], i) == BodyAt(log, i)
  {
  }

  lemma ChoiceStays(inp: StepInput, log: seq<Event>, e: Event)
    requires 0 <= Offer(log) && Offer(log) + 2 < |log| && !e.body.Offered?
    ensures Offer(log + [e]) == Offer(log)
    ensures Choice(inp, log + [e]) == Choice(inp, log)
    ensures FrameAt(log + [e]) == FrameAt(log)
    ensures SeenAt(log + [e]) == SeenAt(log)
  {
    hide Offer, OptionOf, BodyAt;
    OfferAppend(log, e);
    var o := Offer(log);
    BodyStays(log, e, o - 1);
    BodyStays(log, e, o + 1);
    BodyStays(log, e, o + 2);
  }

  predicate Bare(pc: Pc) { pc.Idle? || pc.Suspending? || pc.Failing? || pc.Escalating? || pc.Verifying? || pc.Judging? }

  lemma BareScene(c: Setup, inp: StepInput, m: Machine, k: nat)
    requires Bare(m.pc)
    ensures Scene(c, inp, m, k)
  {
  }

  lemma ChoiceOfScene(c: Setup, inp: StepInput, m: Machine, k: nat, cand: Candidate)
    requires m.pc.Validating? && Scene(c, inp, m, k)
    requires m.pc.decision.candidateId.Some?
             && m.pc.view.frame.Find(m.pc.decision.candidateId.value) == Some(cand)
    ensures Choice(inp, m.log) == Some(cand)
  {
    hide Offer, Choice, OptionOf, Framed;
    ChoiceIs(inp, m.log, m.pc.decision);
    FoundIsOption(c, inp, m.st, m.pc.view.frame, m.pc.decision.candidateId.value, cand);
  }

  lemma ValidationPlaces(c: Setup, inp: StepInput, m: Machine, k: nat)
    requires m.pc.Validating? && Placed(c, inp, m, k)
    ensures Placed(c, inp, Make(m, Next(c, m.st, m.pc, inp)), k)
  {
    hide Upcoming, Next, Due, Apply, Scene, Choice, FrameAt;
    var v, d := m.pc.view, m.pc.decision;
    NextValidating(c, m.st, v, d, inp);
    var move := Next(c, m.st, m.pc, inp);
    if move.body.IntentRecorded? {
      ChoiceOfScene(c, inp, m, k, move.pc.cand);
      IntentPlaces(c, inp, m, k, move);
    } else {
      var e, n := Event(|m.log| + 1, move.step, move.body), Make(m, move);
      BareScene(c, inp, n, k);
      DueAfter(c, inp, n.st, m.log, e, k);
      UpcomingEnd(c, n.st, inp, PolicyBlocked);
      UpcomingEnd(c, n.st, inp, AwaitingResult);
      UpcomingAfterDecision(c, n.st, inp);
    }
  }

  lemma NextExecuting(c: Setup, st: RuntimeState, v: View, cand: Candidate, op: OperationId, inp: StepInput)
    ensures Upcoming(c, st, Executing(v, cand, op), inp)
         == match inp.execute
            case ExecRejected => Now(st, ReceiptRecorded(op, cand.key, cand.args, cand.idempotency, Rejected))
            case ExecCrashed => Now(st, ErrorRaised(ExecuteStage))
            case ExecReceipt(id, status) => Now(st, ReceiptRecorded(id, cand.key, cand.args, cand.idempotency, status))
    ensures Upcoming(c, st, Crashed(v, cand, op), inp)
         == Now(st, ReceiptRecorded(op, cand.key, cand.args, cand.idempotency, Unknown))
    ensures var move := Next(c, st, Executing(v, cand, op), inp);
            move.Say? && move.pc == match inp.execute
                                    case ExecRejected => PostObserving(v, cand, Rejected)
                                    case ExecCrashed => Crashed(v, cand, op)
                                    case ExecReceipt(_, status) => PostObserving(v, cand, status)
    ensures var move := Next(c, st, Crashed(v, cand, op), inp); move.Say? && move.pc == PostObserving(v, cand, Unknown)
  {
    hide Upcoming, Refused, Combine, AssessEffect, AssessAttempts, Mint, Accounts, BuildFrame;
    UpcomingGo(c, st, Executing(v, cand, op), inp);
    UpcomingGo(c, st, Crashed(v, cand, op), inp);
  }

  lemma IntentPlaces(c: Setup, inp: StepInput, m: Machine, k: nat, move: Move)
    requires m.pc.Validating? && Placed(c, inp, m, k) && move.Say? && move.pc.Executing? && move.pc.view == m.pc.view
    requires var x := move.pc.cand; move.body == IntentRecorded(move.pc.op, x.key, x.args, x.effect)
    requires Choice(inp, m.log) == Some(move.pc.cand)
    ensures Placed(c, inp, Make(m, move), k)
  {
    hide Upcoming, Next, Due, Apply, Offer, Offerable, Normalize, OptionOf, Framed, Choice, BodyAt, FrameAt, SeenAt;
    var e, n := Event(|m.log| + 1, move.step, move.body), Make(m, move);
    ChoiceStays(inp, m.log, e);
    DueAfter(c, inp, n.st, m.log, e, k);
    NextExecuting(c, n.st, move.pc.view, move.pc.cand, move.pc.op, inp);
  }

  lemma CrashPlaces(c: Setup, inp: StepInput, m: Machine, k: nat)
    requires m.pc.Executing? && inp.execute.ExecCrashed? && Placed(c, inp, m, k)
    ensures Placed(c, inp, Make(m, Next(c, m.st, m.pc, inp)), k)
  {
    hide Upcoming, Next, Due, Apply, Offer, Choice, FrameAt, SeenAt;
    var move := Next(c, m.st, m.pc, inp);
    NextExecuting(c, m.st, m.pc.view, m.pc.cand, m.pc.op, inp);
    UpcomingGo(c, m.st, m.pc, inp);
    var e, n := Event(|m.log| + 1, move.step, move.body), Make(m, move);
    ChoiceStays(inp, m.log, e);
    DueAfter(c, inp, n.st, m.log, e, k);
    NextExecuting(c, n.st, m.pc.view, m.pc.cand, m.pc.op, inp);
  }

  /** What the second look says, or that there is none. */
  lemma NextPostObserving(c: Setup, st: RuntimeState, v: View, cand: Candidate, status: ReceiptStatus, inp: StepInput)
    ensures Next(c, st, PostObserving(v, cand, status), inp)
         == if !Accounts(c, st, cand) then Go(Accounting(v, cand, status, false))
            else
              match inp.observeAfter
              case None => Say(st.step, ObserveFailed, Accounting(v, cand, status, false))
              case Some(after) =>
                Say(st.step, Observed(after, after.revision != v.seen.revision),
                    Accounting(v, cand, status, after.revision != v.seen.revision))
  {
    hide Accounts;
  }

  function Closes(st: RuntimeState, v: View, cand: Candidate, status: ReceiptStatus, changed: bool): Option<Saying> {
    Now(st, StepRecorded(StepRecord(st.step, v.frame.frameId, v.seen.revision, Some(cand.key), None, Some(status),
                                    changed)))
  }

  lemma UpcomingRecording(c: Setup, st: RuntimeState, v: View, cand: Candidate, status: ReceiptStatus, changed: bool,
                          combined: GuardOutcome, inp: StepInput)
    ensures Upcoming(c, st, Recording(v, cand, status, changed, combined), inp) == Closes(st, v, cand, status, changed)
    ensures var move := Next(c, st, Recording(v, cand, status, changed, combined), inp);
            move.Say? && move.pc == if combined.kind.NoGuard? then Idle else Escalating(combined.kind)
  {
    hide Upcoming, Refused, Combine, AssessEffect, AssessAttempts, Mint, Accounts, BuildFrame;
    UpcomingGo(c, st, Recording(v, cand, status, changed, combined), inp);
  }

  /** Nothing happened that should have, or the step is closed. */
  lemma NextAccounting(c: Setup, st: RuntimeState, v: View, cand: Candidate, status: ReceiptStatus, changed: bool,
                       inp: StepInput)
    requires v.outcome == QUIET
    ensures var move := Next(c, st, Accounting(v, cand, status, changed), inp);
            var stuck := Accounts(c, st, cand) && status == Completed && !changed;
            && !move.Stop? && move.pc.Recording? && move.pc.view == v && move.pc.cand == cand
            && move.pc.receipt == status && move.pc.changed == changed
            && (if stuck then move.Say? && move.step == st.step
                              && move.body == GuardRaised(GuardOutcome(NoProgress, {cand.key}, true))
                              && move.pc.combined.kind == NoProgress
                else move.Go? && move.pc.combined.kind == NoGuard)
  {
    hide BuildFrame, Refused, AssessAttempts, AssessFrame, Mint;
  }

  lemma UpcomingAccounting(c: Setup, st: RuntimeState, v: View, cand: Candidate, status: ReceiptStatus, changed: bool,
                           inp: StepInput)
    requires v.outcome == QUIET
    ensures Upcoming(c, st, Accounting(v, cand, status, changed), inp)
         == if Accounts(c, st, cand) && status == Completed && !changed
            then Now(st, GuardRaised(GuardOutcome(NoProgress, {cand.key}, true)))
            else Closes(st, v, cand, status, changed)
  {
    hide Upcoming, Next, Accounts;
    NextAccounting(c, st, v, cand, status, changed, inp);
    var pc := Accounting(v, cand, status, changed);
    UpcomingGo(c, st, pc, inp);
    UpcomingRecording(c, st, v, cand, status, changed, Next(c, st, pc, inp).pc.combined, inp);
  }

  lemma UpcomingPostObserving(c: Setup, st: RuntimeState, v: View, cand: Candidate, status: ReceiptStatus,
                              inp: StepInput)
    requires v.outcome == QUIET
    ensures Upcoming(c, st, PostObserving(v, cand, status), inp)
         == if !Accounts(c, st, cand) then Closes(st, v, cand, status, false)
            else
              match inp.observeAfter
              case None => Now(st, ObserveFailed)
              case Some(after) => Now(st, Observed(after, after.revision != v.seen.revision))
  {
    hide Upcoming, Next, Accounts;
    NextPostObserving(c, st, v, cand, status, inp);
    UpcomingGo(c, st, PostObserving(v, cand, status), inp);
    UpcomingAccounting(c, st, v, cand, status, false, inp);
  }

  /** The facts about the action that the log holds. */
  lemma ActionInLog(c: Setup, inp: StepInput, st: RuntimeState, log: seq<Event>, k: nat, v: View, cand: Candidate)
    requires Chosen(inp, log, k, v, cand)
    ensures FrameAt(log) == v.frame.frameId && SeenAt(log) == v.seen.revision
    ensures LooksAgain(c, st, log) <==> Accounts(c, st, cand)
    ensures Idempotent(inp, log) == cand.idempotency
  {
    hide Offer, Choice;
  }

  lemma ChosenStays(inp: StepInput, log: seq<Event>, e: Event, k: nat, v: View, cand: Candidate)
    requires Chosen(inp, log, k, v, cand) && !e.body.Offered?
    ensures Chosen(inp, log + [e], k, v, cand) && Offer(log + [e]) == Offer(log)
  {
    hide Offer, Choice, FrameAt, SeenAt;
    ChoiceStays(inp, log, e);
    var longer := log + [e];
    assert forall i | 0 <= i < |log| :: longer[i] == log[i];
  }

  lemma ActingScene(c: Setup, inp: StepInput, m: Machine, k: nat)
    requires (m.pc.Executing? || m.pc.Crashed?) && Scene(c, inp, m, k)
    ensures Chosen(inp, m.log, k, m.pc.view, m.pc.cand) && Offer(m.log) <= |m.log| - 4
  {
    hide Offer, Chosen;
  }

  lemma ReceiptScene(c: Setup, inp: StepInput, m: Machine, k: nat)
    requires m.pc.PostObserving? && Chosen(inp, m.log, k, m.pc.view, m.pc.cand) && Offer(m.log) <= |m.log| - 5
    requires IsReceipt(m.log[|m.log| - 1].body, m.pc.cand, m.pc.receipt)
    ensures Scene(c, inp, m, k)
  {
    hide Offer, Chosen;
  }

  lemma ReceiptPlaces(c: Setup, inp: StepInput, m: Machine, k: nat)
    requires (m.pc.Executing? && !inp.execute.ExecCrashed?) || m.pc.Crashed?
    requires m.pc.view.outcome == QUIET && Placed(c, inp, m, k)
    ensures Placed(c, inp, Make(m, Next(c, m.st, m.pc, inp)), k)
  {
    hide Upcoming, Next, Due, Apply, Offer, Chosen, Accounts, LooksAgain, FrameAt, SeenAt, Scene;
    var v, cand := m.pc.view, m.pc.cand;
    NextExecuting(c, m.st, v, cand, m.pc.op, inp);
    UpcomingGo(c, m.st, m.pc, inp);
    var move := Next(c, m.st, m.pc, inp);
    var e, n := Event(|m.log| + 1, move.step, move.body), Make(m, move);
    ActingScene(c, inp, m, k);
    ChosenStays(inp, m.log, e, k, v, cand);
    ReceiptScene(c, inp, n, k);
    ActionInLog(c, inp, n.st, n.log, k, v, cand);
    DueAfter(c, inp, n.st, m.log, e, k);
    UpcomingPostObserving(c, n.st, v, cand, move.pc.receipt, inp);
  }

  /** After a receipt an observation is the second look. */
  lemma DueSecond(c: Setup, inp: StepInput, st: RuntimeState, log: seq<Event>, e: Event, k: nat)
    requires k < |log| && log[|log| - 1].body.ReceiptRecorded? && (e.body.Observed? || e.body.ObserveFailed?)
    ensures Due(c, inp, st, log + [e], k)
         == AfterLook(st, log + [e], log[|log| - 1].body, e.body.Observed? && e.body.changed)
  {
    hide AfterFrame, AfterDecision, AfterIntent, AfterReceipt, AfterGuard, AfterRecord, AfterVerdict, AtStart, Look,
         BuildFrame, AfterLook;
    var longer := log + [e];
    assert longer[|longer| - 1] == e && longer[|longer| - 2] == log[|log| - 1];
  }

  lemma LookingScene(c: Setup, inp: StepInput, m: Machine, k: nat)
    requires m.pc.PostObserving? && Scene(c, inp, m, k)
    ensures Chosen(inp, m.log, k, m.pc.view, m.pc.cand) && k < Offer(m.log) <= |m.log| - 5
    ensures IsReceipt(m.log[|m.log| - 1].body, m.pc.cand, m.pc.receipt)
  {
    hide Offer, Choice;
  }

  lemma AccountingScene(c: Setup, inp: StepInput, m: Machine, k: nat)
    requires m.pc.Accounting? && Chosen(inp, m.log, k, m.pc.view, m.pc.cand)
    requires var log, n := m.log, |m.log|;
             if Accounts(c, m.st, m.pc.cand) then
               && Offer(log) <= n - 6 && IsReceipt(log[n - 2].body, m.pc.cand, m.pc.receipt)
               && (if log[n - 1].body.Observed? then log[n - 1].body.changed == m.pc.changed
                   else log[n - 1].body == ObserveFailed && !m.pc.changed)
             else Offer(log) <= n - 5 && IsReceipt(log[n - 1].body, m.pc.cand, m.pc.receipt) && !m.pc.changed
    ensures Scene(c, inp, m, k)
  {
    hide Offer, Chosen, Accounts;
  }

  lemma LookEffect(c: Setup, st: RuntimeState, e: Event, cand: Candidate)
    requires e.body.Observed? || e.body.ObserveFailed? || e.body.GuardRaised?
    ensures Accounts(c, Apply(st, e), cand) <==> Accounts(c, st, cand)
  {
  }

  lemma LookPlaces(c: Setup, inp: StepInput, m: Machine, k: nat)
    requires m.pc.PostObserving? && m.pc.view.outcome == QUIET && Placed(c, inp, m, k)
    ensures Placed(c, inp, Make(m, Next(c, m.st, m.pc, inp)), k)
  {
    hide Upcoming, Next, Due, Apply, Offer, Chosen, Accounts, LooksAgain, FrameAt, SeenAt, Scene;
    var v, cand, status := m.pc.view, m.pc.cand, m.pc.receipt;
    NextPostObserving(c, m.st, v, cand, status, inp);
    var move := Next(c, m.st, m.pc, inp);
    LookingScene(c, inp, m, k);
    if move.Go? {
      GoKeepsDue(c, inp, m, k);
      AccountingScene(c, inp, Make(m, move), k);
    } else {
      var e, n := Event(|m.log| + 1, move.step, move.body), Make(m, move);
      ChosenStays(inp, m.log, e, k, v, cand);
      LookEffect(c, m.st, e, cand);
      assert n.log[|n.log| - 1] == e && n.log[|n.log| - 2] == m.log[|m.log| - 1];
      AccountingScene(c, inp, n, k);
      ActionInLog(c, inp, n.st, n.log, k, v, cand);
      DueSecond(c, inp, n.st, m.log, e, k);
      UpcomingAccounting(c, n.st, v, cand, status, move.pc.changed, inp);
    }
  }

  lemma AccountedScene(c: Setup, inp: StepInput, m: Machine, k: nat)
    requires m.pc.Accounting? && Scene(c, inp, m, k)
    ensures Chosen(inp, m.log, k, m.pc.view, m.pc.cand) && k < Offer(m.log) <= |m.log| - 5
    ensures !m.log[|m.log| - 1].body.GuardRaised?
    ensures Accounts(c, m.st, m.pc.cand) ==>
              Offer(m.log) <= |m.log| - 6 && IsReceipt(m.log[|m.log| - 2].body, m.pc.cand, m.pc.receipt)
  {
    hide Offer, Choice, Accounts;
  }

  lemma RecordingScene(c: Setup, inp: StepInput, m: Machine, k: nat)
    requires m.pc.Recording? && Chosen(inp, m.log, k, m.pc.view, m.pc.cand) && Offer(m.log) <= |m.log| - 5
    requires if m.pc.combined.kind.NoGuard? then !m.log[|m.log| - 1].body.GuardRaised?
             else m.pc.combined.kind == NoProgress && m.log[|m.log| - 1].body.GuardRaised?
    ensures Scene(c, inp, m, k)
  {
    hide Offer, Chosen;
  }

  lemma AccountPlaces(c: Setup, inp: StepInput, m: Machine, k: nat)
    requires m.pc.Accounting? && m.pc.view.outcome == QUIET && Placed(c, inp, m, k)
    ensures Placed(c, inp, Make(m, Next(c, m.st, m.pc, inp)), k)
  {
    hide Upcoming, Next, Due, Apply, Offer, Chosen, Accounts, LooksAgain, FrameAt, SeenAt, Scene;
    var v, cand, status, changed := m.pc.view, m.pc.cand, m.pc.receipt, m.pc.changed;
    NextAccounting(c, m.st, v, cand, status, changed, inp);
    var move := Next(c, m.st, m.pc, inp);
    AccountedScene(c, inp, m, k);
    if move.Go? {
      GoKeepsDue(c, inp, m, k);
      RecordingScene(c, inp, Make(m, move), k);
    } else {
      var e, n := Event(|m.log| + 1, move.step, move.body), Make(m, move);
      ChosenStays(inp, m.log, e, k, v, cand);
      assert n.log[|n.log| - 1] == e && n.log[|n.log| - 3] == m.log[|m.log| - 2];
      RecordingScene(c, inp, n, k);
      ActionInLog(c, inp, n.st, n.log, k, v, cand);
      DueAfter(c, inp, n.st, m.log, e, k);
      UpcomingRecording(c, n.st, v, cand, status, changed, move.pc.combined, inp);
    }
  }

  lemma RecordedScene(c: Setup, inp: StepInput, m: Machine, k: nat)
    requires m.pc.Recording? && Scene(c, inp, m, k)
    ensures |m.log| > k
    ensures if m.pc.combined.kind.NoGuard? then !m.log[|m.log| - 1].body.GuardRaised?
            else m.pc.combined.kind == NoProgress && m.log[|m.log| - 1].body.GuardRaised?
  {
    hide Offer, Choice;
  }

  lemma RecordPlaces(c: Setup, inp: StepInput, m: Machine, k: nat)
    requires m.pc.Recording? && Placed(c, inp, m, k)
    ensures Placed(c, inp, Make(m, Next(c, m.st, m.pc, inp)), k)
  {
    hide Upcoming, Next, Due, Apply, Scene;
    UpcomingRecording(c, m.st, m.pc.view, m.pc.cand, m.pc.receipt, m.pc.changed, m.pc.combined, inp);
    UpcomingGo(c, m.st, m.pc, inp);
    var move := Next(c, m.st, m.pc, inp);
    var e, n := Event(|m.log| + 1, move.step, move.body), Make(m, move);
    RecordedScene(c, inp, m, k);
    BareScene(c, inp, n, k);
    assert n.log[|n.log| - 2] == m.log[|m.log| - 1];
    DueAfter(c, inp, n.st, m.log, e, k);
    UpcomingEnd(c, n.st, inp, AwaitingResult);
    UpcomingAfterDecision(c, n.st, inp);
  }

  lemma NextBare(c: Setup, st: RuntimeState, pc: Pc, inp: StepInput)
    requires pc.Escalating? || pc.Judging?
    ensures var move := Next(c, st, pc, inp);
            !move.Stop? && Bare(move.pc) && (move.Say? ==> move.body.RunFinished? && move.pc.Idle?)
  {
    hide BuildFrame, Refused, Combine, AssessEffect, AssessAttempts, AssessFrame, Mint, Accounts;
  }

  lemma BarePlaces(c: Setup, inp: StepInput, m: Machine, k: nat)
    requires (m.pc.Escalating? || m.pc.Judging?) && Placed(c, inp, m, k)
    ensures Placed(c, inp, Make(m, Next(c, m.st, m.pc, inp)), k)
  {
    hide Upcoming, Next, Due, Apply, Scene;
    NextBare(c, m.st, m.pc, inp);
    var move := Next(c, m.st, m.pc, inp);
    var n := Make(m, move);
    BareScene(c, inp, n, k);
    if move.Go? {
      GoKeepsDue(c, inp, m, k);
    } else {
      DueAfter(c, inp, n.st, m.log, Event(|m.log| + 1, move.step, move.body), k);
      UpcomingEnd(c, n.st, inp, AwaitingResult);
    }
  }

  lemma UpcomingJudging(c: Setup, st: RuntimeState, verdict: Verdict, inp: StepInput)
    ensures Upcoming(c, st, Judging(verdict), inp) == AfterVerdict(c, st, verdict)
  {
    hide Upcoming, BuildFrame, Refused, Combine, AssessEffect, AssessAttempts, AssessFrame, Mint, Accounts;
    UpcomingGo(c, st, Judging(verdict), inp);
    UpcomingEnd(c, st, inp, VerificationExhausted);
    UpcomingEnd(c, st, inp, AwaitingEvidence);
  }

  lemma NextVerifying(c: Setup, st: RuntimeState, inp: StepInput)
    ensures Next(c, st, Verifying, inp)
         == if !c.hasVerifier || inp.verdict.None? then Say(st.step, Verified(Undecided), Suspending(AwaitingEvidence))
            else Say(st.step, Verified(inp.verdict.value), Judging(inp.verdict.value))
  {
  }

  lemma VerifyPlaces(c: Setup, inp: StepInput, m: Machine, k: nat)
    requires m.pc.Verifying? && Placed(c, inp, m, k)
    ensures Placed(c, inp, Make(m, Next(c, m.st, m.pc, inp)), k)
  {
    hide Upcoming, Next, Due, Apply, Scene;
    NextVerifying(c, m.st, inp);
    var move := Next(c, m.st, m.pc, inp);
    var n := Make(m, move);
    BareScene(c, inp, n, k);
    DueAfter(c, inp, n.st, m.log, Event(|m.log| + 1, move.step, move.body), k);
    UpcomingEnd(c, n.st, inp, AwaitingEvidence);
    UpcomingJudging(c, n.st, move.body.verdict, inp);
  }
}
