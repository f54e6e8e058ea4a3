/** The kernel step as a small-step machine: `Next` says, for one control position, which single
    event is recorded next or where control moves silently. One `step()` drives it back to Idle. */
module KernelMachine {
  import opened JsonModel
  import opened KernelTypes
  import opened KernelReduce
  import opened KernelGuards

  /** What the step has fixed so far: the observation it started from, the frame and its assessment. */
  datatype View = View(seen: Observation, frame: Frame, outcome: GuardOutcome)

  /** Control positions inside one step, with the local variables that are live there. */
  datatype Pc =
    | Idle
    | Begin
    | Resolving(operations: seq<UnresolvedOperation>, k: nat)
    | Observing
    | Suspending(reason: StopReason)
    | Offering(seen: Observation)
    | Building(seen: Observation)
    | Assessing(seen: Observation, frame: Frame)
    | FrameGuarded(view: View)
    | Deciding(view: View)
    | Failing(reason: StopReason)
    | Validating(view: View, decision: Decision)
    | Escalating(kind: GuardKind)
    | Executing(view: View, cand: Candidate, op: OperationId)
    | Crashed(view: View, cand: Candidate, op: OperationId)
    | PostObserving(view: View, cand: Candidate, receipt: ReceiptStatus)
    | Accounting(view: View, cand: Candidate, receipt: ReceiptStatus, changed: bool)
    | Recording(view: View, cand: Candidate, receipt: ReceiptStatus, changed: bool, combined: GuardOutcome)
    | Verifying
    | Judging(verdict: Verdict)

  datatype Move =
    | Say(step: int, body: Payload, pc: Pc)
    | Go(pc: Pc)
    | Stop

  predicate OverBudget(c: Setup, st: RuntimeState, now: real) {
    c.config.maxSeconds.Some? && c.config.maxSeconds.value != 0.0 && now - st.startedAt > c.config.maxSeconds.value
  }

  function Keys(cs: seq<Candidate>): seq<string> { seq(|cs|, i requires 0 <= i < |cs| => cs[i].key) }

  function ControlRecord(st: RuntimeState, frame: Frame, control: Control): StepRecord {
    StepRecord(st.step, frame.frameId, st.Revision(), None, Some(control), None, false)
  }

  function Mint(c: Setup, st: RuntimeState, cand: Candidate): OperationId {
    Minted(st.runId, st.step, c.operationHash(cand.key, cand.args))
  }

  function Receipt(cand: Candidate, op: OperationId, status: ReceiptStatus): Payload {
    ReceiptRecorded(op, cand.key, cand.args, cand.idempotency, status)
  }

  /** Stage 10 looks at the world again only for a mutating action with a definite receipt. */
  predicate Accounts(c: Setup, st: RuntimeState, cand: Candidate) {
    c.config.postObserve && cand.effect.Mutates() && st.unresolved == []
  }

  function Next(c: Setup, st: RuntimeState, pc: Pc, inp: StepInput): Move {
    match pc
    case Idle => Stop
    case Begin =>
      if st.status.Terminal() then Go(Idle)
      else if c.config.maxSteps != 0 && st.step + 1 > c.config.maxSteps then
        Say(st.step, RunFinished(Failed, Some(MaxSteps)), Idle)
      else if OverBudget(c, st, inp.now) then Say(st.step, RunFinished(Failed, Some(BudgetExhausted)), Idle)
      else if st.unresolved != [] then Go(Resolving(st.unresolved, 0))
      else Go(Observing)
    case Resolving(ops, k) =>
      if k >= |ops| then if st.unresolved != [] then Go(Suspending(AwaitingResult)) else Go(Observing)
      else (match inp.Query(k)
            case QueryFailed => Say(st.step, ErrorRaised(QueryStage), Resolving(ops, k + 1))
            case NoReceipt => Go(Resolving(ops, k + 1))
            case QueryReceipt(status) =>
              if status.Unresolved() then Go(Resolving(ops, k + 1))
              else Say(st.step, OperationResolved(ops[k].operationId, ops[k].key, status), Resolving(ops, k + 1)))
    case Observing =>
      (match inp.observe
       case None => Say(st.step + 1, ObserveFailed, Suspending(AwaitingEvidence))
       case Some(o) =>
         var changed := st.observation.None? || st.observation.value.revision != o.revision;
         Say(st.step + 1, Observed(o, changed), Offering(o)))
    case Suspending(reason) => Say(st.step, RunSuspended(reason), Idle)
    case Offering(o) => Say(st.step, Offered(Keys(inp.candidates)), Building(o))
    case Building(o) =>
      (match BuildFrame(c, st, inp.candidates, inp.frameChars)
       case None => Go(Failing(BudgetExhausted))
       case Some(f) =>
         Say(st.step, FrameBuilt(f.frameId, f.fingerprint, |f.candidates|, |f.candidates| + |f.controls|),
             Assessing(o, f)))
    case Assessing(o, f) =>
      var g := AssessFrame(st, f.fingerprint, c.config);
      if g.kind.NoGuard? then Go(Deciding(View(o, f, g))) else Say(st.step, GuardRaised(g), FrameGuarded(View(o, f, g)))
    case FrameGuarded(v) =>
      if v.outcome.escalate && v.outcome.deadKeys == {} then Go(Suspending(AwaitingEvidence)) else Go(Deciding(v))
    case Deciding(v) =>
      (match inp.decision
       case None => Say(st.step, ErrorRaised(PolicyStage), Failing(PolicyError))
       case Some(d) => Say(st.step, DecisionMade(d), Validating(v, d)))
    case Failing(reason) => Say(st.step, RunFinished(Failed, Some(reason)), Idle)
    case Validating(v, d) =>
      if d.frameId != v.frame.frameId || d.candidateId.None? == d.control.None? then
        Say(st.step, DecisionRejected(d.candidateId), Idle)
      else if d.control.Some? then NextControl(st, v.frame, d.control.value)
      else (match v.frame.Find(d.candidateId.value)
            case None => Say(st.step, DecisionRejected(d.candidateId), Idle)
            case Some(cand) => NextCandidate(c, st, v, cand, inp))
    case Escalating(kind) =>
      if st.guardEscalations < c.config.maxGuardEscalations then Go(Idle)
      else Go(Failing(if kind.NoProgress? then NoProgressMade else CycleDetected))
    case Executing(v, cand, op) =>
      (match inp.execute
       case ExecRejected => Say(st.step, Receipt(cand, op, Rejected), PostObserving(v, cand, Rejected))
       case ExecCrashed => Say(st.step, ErrorRaised(ExecuteStage), Crashed(v, cand, op))
       case ExecReceipt(id, status) => Say(st.step, Receipt(cand, id, status), PostObserving(v, cand, status)))
    case Crashed(v, cand, op) => Say(st.step, Receipt(cand, op, Unknown), PostObserving(v, cand, Unknown))
    case PostObserving(v, cand, status) =>
      if !Accounts(c, st, cand) then Go(Accounting(v, cand, status, false))
      else (match inp.observeAfter
            case None => Say(st.step, ObserveFailed, Accounting(v, cand, status, false))
            case Some(after) =>
              var changed := after.revision != v.seen.revision;
              Say(st.step, Observed(after, changed), Accounting(v, cand, status, changed)))
    case Accounting(v, cand, status, changed) =>
      var effect := Effect(c, st, cand, status, changed);
      var combined := Combine(v.outcome, effect);
      if effect.kind.NoGuard? then Go(Recording(v, cand, status, changed, combined))
      else Say(st.step, GuardRaised(effect), Recording(v, cand, status, changed, combined))
    case Recording(v, cand, status, changed, combined) =>
      Say(st.step, StepRecorded(ActionRecord(st, v, cand, status, changed)),
          if combined.kind.NoGuard? then Idle else Escalating(combined.kind))
    case Verifying =>
      if !c.hasVerifier || inp.verdict.None? then Say(st.step, Verified(Undecided), Suspending(AwaitingEvidence))
      else Say(st.step, Verified(inp.verdict.value), Judging(inp.verdict.value))
    case Judging(verdict) =>
      (match verdict
       case Satisfied => Say(st.step, RunFinished(Succeeded, None), Idle)
       case Unsatisfied =>
         if |st.verifications| >= c.config.maxVerifications then Go(Failing(VerificationExhausted)) else Go(Idle)
       case Undecided => Go(Suspending(AwaitingEvidence)))
  }

  function ActionRecord(st: RuntimeState, v: View, cand: Candidate, status: ReceiptStatus, changed: bool): StepRecord {
    StepRecord(st.step, v.frame.frameId, v.seen.revision, Some(cand.key), None, Some(status), changed)
  }

  function Effect(c: Setup, st: RuntimeState, cand: Candidate, status: ReceiptStatus, changed: bool): GuardOutcome {
    if Accounts(c, st, cand) then AssessEffect(cand.key, status, changed, cand.effect.Mutates()) else QUIET
  }

  function NextControl(st: RuntimeState, f: Frame, control: Control): Move {
    if control !in f.controls then Say(st.step, DecisionRejected(None), Idle)
    else Say(st.step, StepRecorded(ControlRecord(st, f, control)),
             match control
             case RequestFinish => Verifying
             case Blocked => Suspending(PolicyBlocked)
             case Wait => Suspending(AwaitingResult)
             case Refresh => Idle)
  }

  function NextCandidate(c: Setup, st: RuntimeState, v: View, cand: Candidate, inp: StepInput): Move {
    if Refused(st, cand, inp.environmentVeto, inp.hostVeto) then Say(st.step, DecisionRejected(Some(cand.id)), Idle)
    else
      var repeated := AssessAttempts(st, v.frame.revision, cand.key);
      if !repeated.kind.NoGuard? then Say(st.step, GuardRaised(repeated), Escalating(repeated.kind))
      else
        var op := Mint(c, st, cand);
        Say(st.step, IntentRecorded(op, cand.key, cand.args, cand.effect), Executing(v, cand, op))
  }

  /** Strictly smaller after every move, so a step always returns to Idle. */
  function Rank(pc: Pc): nat {
    match pc
    case Idle => 0
    case Failing(_) => 1
    case Suspending(_) => 1
    case Escalating(_) => 2
    case Judging(_) => 2
    case Verifying => 3
    case Recording(_, _, _, _, _) => 3
    case Accounting(_, _, _, _) => 4
    case PostObserving(_, _, _) => 5
    case Crashed(_, _, _) => 6
    case Executing(_, _, _) => 7
    case Validating(_, _) => 8
    case Deciding(_) => 9
    case FrameGuarded(_) => 10
    case Assessing(_, _) => 11
    case Building(_) => 12
    case Offering(_) => 13
    case Observing => 14
    case Resolving(ops, k) => if k < |ops| then 15 + |ops| - k else 15
    case Begin => 0
  }

  datatype Machine = Machine(st: RuntimeState, log: seq<Event>, pc: Pc)

  function Record(m: Machine, step: int, body: Payload, pc: Pc): Machine {
    var e := Event(|m.log| + 1, step, body);
    Machine(Apply(m.st, e), m.log + [e], pc)
  }

  predicate Below(a: Pc, b: Pc) { (b.Begin? && !a.Begin?) || (a.Begin? == b.Begin? && Rank(a) < Rank(b)) }

  lemma ChoiceDescends(c: Setup, st: RuntimeState, v: View, d: Decision, inp: StepInput)
    ensures var move := Next(c, st, Validating(v, d), inp); !move.Stop? && Rank(move.pc) < 8 && !move.pc.Begin?
  {
    hide BuildFrame, AssessFrame, AssessAttempts, AssessEffect, Refused, Mint, Combine, OverBudget, Accounts,
         ActionRecord;
  }

  lemma NextDescends(c: Setup, st: RuntimeState, pc: Pc, inp: StepInput)
    ensures var move := Next(c, st, pc, inp); move.Stop? || Below(move.pc, pc)
  {
    hide BuildFrame, AssessFrame, AssessAttempts, AssessEffect, Refused, Mint, Combine, OverBudget, Accounts,
         ActionRecord,
         NextControl, NextCandidate;
    if pc.Validating? { ChoiceDescends(c, st, pc.view, pc.decision, inp); }
  }

  function Make(m: Machine, move: Move): (r: Machine)
    ensures !move.Stop? ==> r.pc == move.pc
  {
    match move
    case Say(step, body, pc) => Record(m, step, body, pc)
    case Go(pc) => m.(pc := pc)
    case Stop => m
  }

  /** Runs the step to its end. */
  function Drive(c: Setup, m: Machine, inp: StepInput): Machine
    decreases m.pc.Begin?, Rank(m.pc)
  {
    var move := Next(c, m.st, m.pc, inp);
    NextDescends(c, m.st, m.pc, inp);
    if move.Stop? then m else Drive(c, Make(m, move), inp)
  }

  /** What the host may call between steps. */
  datatype Call =
    | CallStep(inp: StepInput)
    | CallResume(input: Option<Json>, update: Option<TaskUpdate>)
    | CallCancel

  function Start(c: Setup): Machine {
    Record(Machine(InitialState(c), [], Idle), 0, RunStarted, Idle)
  }

  function UpdateStep(st: RuntimeState, u: TaskUpdate): int { if u.step.Some? then u.step.value else st.step }

  function ResumeRun(m: Machine, input: Option<Json>, update: Option<TaskUpdate>): Machine {
    if m.st.status.Terminal() then m
    else
      var woken := Record(m, m.st.step, Resumed(input), Idle);
      if update.None? then woken else Record(woken, UpdateStep(woken.st, update.value), TaskUpdated(update.value), Idle)
  }

  function CancelRun(m: Machine): Machine {
    if m.st.status.Terminal() then m
    else Record(m, m.st.step, RunFinished(Cancelled, Some(CancelledByHost)), Idle)
  }

  function StepRun(c: Setup, m: Machine, inp: StepInput): Machine { Drive(c, m.(pc := Begin), inp) }

  function Perform(c: Setup, m: Machine, call: Call): Machine {
    match call
    case CallStep(inp) => StepRun(c, m, inp)
    case CallResume(input, update) => ResumeRun(m, input, update)
    case CallCancel => CancelRun(m)
  }

  /** Every run of the kernel is `History(c, calls)` for some sequence of host calls. */
  function History(c: Setup, calls: seq<Call>): Machine {
    if calls == [] then Start(c) else Perform(c, History(c, calls[..|calls| - 1]), calls[|calls| - 1])
  }
}
