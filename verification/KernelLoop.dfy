/** The `Loop` object (core/loop.py): one method for each of its methods, written the way the source
    writes them, each proved to take exactly the moves of the kernel machine. */
module KernelLoop {
  import opened JsonModel
  import opened KernelTypes
  import opened KernelReduce
  import opened KernelGuards
  import opened KernelMachine
  import opened KernelTheorems

  class Loop {
    const setup: Setup
    var state: RuntimeState
    var store: seq<Event>
    var seqNo: nat
    var cancelled: bool
    ghost var pc: Pc

    ghost function Here(): Machine reads this { Machine(state, store, pc) }

    /** Where the step in progress will end. */
    ghost function Goal(inp: StepInput): Machine reads this { Drive(setup, Here(), inp) }

    ghost predicate Numbered() reads this { seqNo == |store| }

    constructor (setup: Setup)
      ensures this.setup == setup && Here() == Start(setup) && Numbered()
    {
      this.setup := setup;
      cancelled := false;
      store := [];
      seqNo := 0;
      state := InitialState(setup);
      pc := Idle;
      new;
      Emit(0, RunStarted, Idle);
    }

    method Emit(step: int, body: Payload, ghost next: Pc)
      requires Numbered()
      modifies `state, `store, `seqNo, `pc
      ensures Here() == Record(old(Here()), step, body, next) && Numbered()
    {
      seqNo := seqNo + 1;
      var event := Event(seqNo, step, body);
      store := store + [event];
      state := Apply(state, event);
      pc := next;
    }

    /** Records the one event the machine prescribes here. */
    method Put(step: int, body: Payload, ghost next: Pc, ghost inp: StepInput)
      requires Numbered() && Next(setup, state, pc, inp) == Say(step, body, next)
      modifies `state, `store, `seqNo, `pc
      ensures Here() == Record(old(Here()), step, body, next) && Numbered() && Goal(inp) == old(Goal(inp))
      ensures state.step == Max(old(state.step), step)
      ensures !body.ReceiptRecorded? && !body.OperationResolved? ==> state.unresolved == old(state.unresolved)
    {
      hide Next;
      Emit(step, body, next);
    }

    ghost method Pass(next: Pc, inp: StepInput)
      requires Next(setup, state, pc, inp) == Go(next)
      modifies `pc
      ensures Here() == old(Here()).(pc := next) && Goal(inp) == old(Goal(inp))
    {
      hide Next;
      pc := next;
    }

    method Suspend(reason: StopReason, ghost inp: StepInput)
      requires Numbered() && pc == Suspending(reason)
      modifies `state, `store, `seqNo, `pc
      ensures pc.Idle? && Numbered() && Goal(inp) == old(Goal(inp))
    {
      Put(state.step, RunSuspended(reason), Idle, inp);
    }

    method Finish(reason: StopReason, ghost inp: StepInput)
      requires Numbered() && pc == Failing(reason)
      modifies `state, `store, `seqNo, `pc
      ensures pc.Idle? && Numbered() && Goal(inp) == old(Goal(inp))
    {
      Put(state.step, RunFinished(Failed, Some(reason)), Idle, inp);
    }

    method GuardFailure(kind: GuardKind, ghost inp: StepInput)
      requires Numbered() && pc == Escalating(kind)
      modifies `state, `store, `seqNo, `pc
      ensures pc.Idle? && Numbered() && Goal(inp) == old(Goal(inp))
    {
      if state.guardEscalations < setup.config.maxGuardEscalations {
        Pass(Idle, inp);
        return;
      }
      var reason := if kind.NoProgress? then NoProgressMade else CycleDetected;
      Pass(Failing(reason), inp);
      Finish(reason, inp);
    }

    method Cancel()
      requires Numbered() && pc.Idle?
      modifies this
      ensures Here() == CancelRun(old(Here())) && Numbered() && cancelled
    {
      cancelled := true;
      if !state.status.Terminal() { Emit(state.step, RunFinished(Cancelled, Some(CancelledByHost)), Idle); }
    }

    method Resume(input: Option<Json>, update: Option<TaskUpdate>)
      requires Numbered() && pc.Idle?
      modifies this
      ensures Here() == ResumeRun(old(Here()), input, update) && Numbered()
    {
      if state.status.Terminal() { return; }
      Emit(state.step, Resumed(input), Idle);
      if update.Some? { Emit(UpdateStep(state, update.value), TaskUpdated(update.value), Idle); }
    }

    method ResolveOperations(inp: StepInput)
      requires Numbered() && pc == Resolving(state.unresolved, 0)
      modifies `state, `store, `seqNo, `pc
      ensures Numbered() && pc == Resolving(old(state.unresolved), |old(state.unresolved)|)
      ensures Goal(inp) == old(Goal(inp))
    {
      hide Apply, BuildFrame, AssessFrame, AssessEffect, Refused, Combine, Mint, NextControl, NextCandidate, Accounts;
      var operations := state.unresolved;
      for k := 0 to |operations|
        invariant Numbered() && pc == Resolving(operations, k) && Goal(inp) == old(Goal(inp))
      {
        match inp.Query(k)
        case QueryFailed => Put(state.step, ErrorRaised(QueryStage), Resolving(operations, k + 1), inp);
        case NoReceipt => Pass(Resolving(operations, k + 1), inp);
        case QueryReceipt(status) =>
          if status.Unresolved() {
            Pass(Resolving(operations, k + 1), inp);
          } else {
            Put(state.step, OperationResolved(operations[k].operationId, operations[k].key, status),
                Resolving(operations, k + 1), inp);
          }
      }
    }

    method Step(inp: StepInput)
      requires Numbered() && pc.Idle?
      modifies this
      ensures Here() == StepRun(setup, old(Here()), inp) && Numbered()
    {
      seqNo := |store|;
      pc := Begin;
      label start:
      if state.status.Terminal() {
        Pass(Idle, inp);
        return;
      }
      var stepNo := state.step + 1;
      if setup.config.maxSteps != 0 && stepNo > setup.config.maxSteps {
        Put(state.step, RunFinished(Failed, Some(MaxSteps)), Idle, inp);
        return;
      }
      if OverBudget(setup, state, inp.now) {
        Put(state.step, RunFinished(Failed, Some(BudgetExhausted)), Idle, inp);
        return;
      }
      if state.unresolved != [] {
        Pass(Resolving(state.unresolved, 0), inp);
        ResolveOperations(inp);
        if state.unresolved != [] {
          Pass(Suspending(AwaitingResult), inp);
          Suspend(AwaitingResult, inp);
          return;
        }
        Pass(Observing, inp);
      } else {
        Pass(Observing, inp);
      }
      Observe(inp, state.step + 1);
      assert Goal(inp) == old@start(Goal(inp));
    }

    /** Stages 3 and 4: observe and offer. */
    method Observe(inp: StepInput, stepNo: nat)
      requires Numbered() && pc.Observing? && stepNo == state.step + 1
      modifies `state, `store, `seqNo, `pc
      ensures pc.Idle? && Numbered() && Goal(inp) == old(Goal(inp))
    {
      hide Apply, BuildFrame, AssessFrame, AssessEffect, Refused, Combine, Mint, NextControl, NextCandidate, Accounts,
           KernelMachine.Effect, ActionRecord, OverBudget;
      match inp.observe
      case None =>
        Put(stepNo, ObserveFailed, Suspending(AwaitingEvidence), inp);
        Suspend(AwaitingEvidence, inp);
      case Some(observation) =>
        var changed := state.observation.None? || state.observation.value.revision != observation.revision;
        Put(stepNo, Observed(observation, changed), Offering(observation), inp);
        Put(stepNo, Offered(Keys(inp.candidates)), Building(observation), inp);
        Offer(inp, stepNo, observation);
    }

    /** Stage 5: build the frame. */
    method Offer(inp: StepInput, stepNo: nat, observation: Observation)
      requires Numbered() && pc == Building(observation) && stepNo == state.step
      modifies `state, `store, `seqNo, `pc
      ensures pc.Idle? && Numbered() && Goal(inp) == old(Goal(inp))
    {
      hide Apply, BuildFrame, AssessFrame, AssessEffect, Refused, Combine, Mint, NextControl, NextCandidate, Accounts,
           KernelMachine.Effect, ActionRecord, OverBudget;
      match BuildFrame(setup, state, inp.candidates, inp.frameChars)
      case None =>
        Pass(Failing(BudgetExhausted), inp);
        Finish(BudgetExhausted, inp);
      case Some(frame) =>
        Put(stepNo, FrameBuilt(frame.frameId, frame.fingerprint, |frame.candidates|,
                               |frame.candidates| + |frame.controls|), Assessing(observation, frame), inp);
        AssessAndDecide(inp, stepNo, observation, frame);
    }

    /** Stages 5 and 6: assess the frame and ask the policy. */
    method AssessAndDecide(inp: StepInput, stepNo: nat, observation: Observation, frame: Frame)
      requires Numbered() && pc == Assessing(observation, frame) && stepNo == state.step
      modifies `state, `store, `seqNo, `pc
      ensures pc.Idle? && Numbered() && Goal(inp) == old(Goal(inp))
    {
      hide AssessFrame, Apply, BuildFrame, AssessEffect, Refused, Combine, Mint, NextControl, NextCandidate, Accounts;
      var outcome := AssessFrame(state, frame.fingerprint, setup.config);
      var view := View(observation, frame, outcome);
      if outcome.kind.NoGuard? {
        Pass(Deciding(view), inp);
      } else {
        Put(stepNo, GuardRaised(outcome), FrameGuarded(view), inp);
        if outcome.escalate && outcome.deadKeys == {} {
          Pass(Suspending(AwaitingEvidence), inp);
          Suspend(AwaitingEvidence, inp);
          return;
        }
        Pass(Deciding(view), inp);
      }
      match inp.decision
      case None =>
        Put(stepNo, ErrorRaised(PolicyStage), Failing(PolicyError), inp);
        Finish(PolicyError, inp);
      case Some(decision) =>
        Put(stepNo, DecisionMade(decision), Validating(view, decision), inp);
        Validate(inp, stepNo, view, decision);
    }

    /** Stage 7: the choice is checked against this frame only. */
    method Validate(inp: StepInput, stepNo: nat, view: View, decision: Decision)
      requires Numbered() && pc == Validating(view, decision) && stepNo == state.step
      modifies `state, `store, `seqNo, `pc
      ensures pc.Idle? && Numbered() && Goal(inp) == old(Goal(inp))
    {
      if decision.frameId != view.frame.frameId {
        Put(stepNo, DecisionRejected(decision.candidateId), Idle, inp);
        return;
      }
      if decision.candidateId.None? == decision.control.None? {
        Put(stepNo, DecisionRejected(decision.candidateId), Idle, inp);
        return;
      }
      if decision.control.Some? {
        HandleControl(inp, stepNo, decision.control.value, view, decision);
        return;
      }
      var found := view.frame.Find(decision.candidateId.value);
      if found.None? {
        Put(stepNo, DecisionRejected(decision.candidateId), Idle, inp);
        return;
      }
      var candidate := found.value;
      if Refused(state, candidate, inp.environmentVeto, inp.hostVeto) {
        Put(stepNo, DecisionRejected(Some(candidate.id)), Idle, inp);
        return;
      }
      var repeated := AssessAttempts(state, view.frame.revision, candidate.key);
      if !repeated.kind.NoGuard? {
        Put(stepNo, GuardRaised(repeated), Escalating(repeated.kind), inp);
        GuardFailure(repeated.kind, inp);
        return;
      }
      var operation := Mint(setup, state, candidate);
      Put(stepNo, IntentRecorded(operation, candidate.key, candidate.args, candidate.effect),
          Executing(view, candidate, operation), inp);
      Execute(inp, stepNo, view, candidate, operation);
    }

    method HandleControl(inp: StepInput, stepNo: nat, control: Control, view: View, ghost decision: Decision)
      requires Numbered() && pc == Validating(view, decision) && stepNo == state.step
      requires decision.frameId == view.frame.frameId
      requires decision.candidateId.None? && decision.control == Some(control)
      modifies `state, `store, `seqNo, `pc
      ensures pc.Idle? && Numbered() && Goal(inp) == old(Goal(inp))
    {
      var frame := view.frame;
      if control !in frame.controls {
        Put(stepNo, DecisionRejected(None), Idle, inp);
        return;
      }
      var record := StepRecorded(ControlRecord(state, frame, control));
      match control
      case RequestFinish =>
        Put(stepNo, record, Verifying, inp);
        Verify(inp);
      case Blocked =>
        Put(stepNo, record, Suspending(PolicyBlocked), inp);
        Suspend(PolicyBlocked, inp);
      case Wait =>
        Put(stepNo, record, Suspending(AwaitingResult), inp);
        Suspend(AwaitingResult, inp);
      case Refresh =>
        Put(stepNo, record, Idle, inp);
    }

    method Verify(inp: StepInput)
      requires Numbered() && pc.Verifying?
      modifies `state, `store, `seqNo, `pc
      ensures pc.Idle? && Numbered() && Goal(inp) == old(Goal(inp))
    {
      if !setup.hasVerifier || inp.verdict.None? {
        Put(state.step, Verified(Undecided), Suspending(AwaitingEvidence), inp);
        Suspend(AwaitingEvidence, inp);
        return;
      }
      var verdict := inp.verdict.value;
      Put(state.step, Verified(verdict), Judging(verdict), inp);
      if verdict.Satisfied? {
        Put(state.step, RunFinished(Succeeded, None), Idle, inp);
        return;
      }
      if verdict.Unsatisfied? {
        if |state.verifications| >= setup.config.maxVerifications {
          Pass(Failing(VerificationExhausted), inp);
          Finish(VerificationExhausted, inp);
        } else {
          Pass(Idle, inp);
        }
        return;
      }
      Pass(Suspending(AwaitingEvidence), inp);
      Suspend(AwaitingEvidence, inp);
    }

    /** Stages 9 and 10: execute, record the receipt, look again, account for the effect. */
    method Execute(inp: StepInput, stepNo: nat, view: View, candidate: Candidate, operation: OperationId)
      requires Numbered() && pc == Executing(view, candidate, operation) && stepNo == state.step
      modifies `state, `store, `seqNo, `pc
      ensures pc.Idle? && Numbered() && Goal(inp) == old(Goal(inp))
    {
      hide Apply;
      var receiptId, status;
      match inp.execute {
        case ExecRejected => receiptId, status := operation, Rejected;
        case ExecReceipt(id, answered) => receiptId, status := id, answered;
        case ExecCrashed =>
          receiptId, status := operation, Unknown;
          Put(stepNo, ErrorRaised(ExecuteStage), Crashed(view, candidate, operation), inp);
      }
      Put(stepNo, Receipt(candidate, receiptId, status), PostObserving(view, candidate, status), inp);
      Account(inp, stepNo, view, candidate, status);
    }

    /** Stage 10: look at the world again after a mutating action with a definite receipt. */
    method LookAgain(inp: StepInput, stepNo: nat, view: View, candidate: Candidate, status: ReceiptStatus)
      returns (changedAfter: bool)
      requires Numbered() && pc == PostObserving(view, candidate, status) && stepNo == state.step
      modifies `state, `store, `seqNo, `pc
      ensures pc == Accounting(view, candidate, status, changedAfter) && stepNo == state.step
      ensures Numbered() && Goal(inp) == old(Goal(inp))
    {
      hide Apply, BuildFrame, AssessFrame, AssessAttempts, AssessEffect, Refused, Mint, Combine, NextControl,
           NextCandidate,
           KernelMachine.Effect, ActionRecord, OverBudget;
      changedAfter := false;
      if setup.config.postObserve && candidate.effect.Mutates() && state.unresolved == [] {
        match inp.observeAfter {
          case Some(after) =>
            changedAfter := after.revision != view.seen.revision;
            Put(stepNo, Observed(after, changedAfter), Accounting(view, candidate, status, changedAfter), inp);
          case None =>
            Put(stepNo, ObserveFailed, Accounting(view, candidate, status, false), inp);
        }
      } else {
        Pass(Accounting(view, candidate, status, false), inp);
      }
    }

    method Account(inp: StepInput, stepNo: nat, view: View, candidate: Candidate, status: ReceiptStatus)
      requires Numbered() && pc == PostObserving(view, candidate, status) && stepNo == state.step
      modifies `state, `store, `seqNo, `pc
      ensures pc.Idle? && Numbered() && Goal(inp) == old(Goal(inp))
    {
      hide Apply, BuildFrame, AssessFrame, AssessAttempts, AssessEffect, Refused, Mint, Combine, NextControl,
           NextCandidate,
           OverBudget;
      var changedAfter := LookAgain(inp, stepNo, view, candidate, status);
      var effect := QUIET;
      if setup.config.postObserve && candidate.effect.Mutates() && state.unresolved == [] {
        effect := AssessEffect(candidate.key, status, changedAfter, candidate.effect.Mutates());
      }
      var combined := Combine(view.outcome, effect);
      if !effect.kind.NoGuard? {
        Put(stepNo, GuardRaised(effect), Recording(view, candidate, status, changedAfter, combined), inp);
      } else {
        Pass(Recording(view, candidate, status, changedAfter, combined), inp);
      }
      Conclude(inp, stepNo, view, candidate, status, changedAfter, combined);
    }

    /** The step record, and what the guards make of it. */
    method Conclude(inp: StepInput, stepNo: nat, view: View, candidate: Candidate, status: ReceiptStatus,
                    changedAfter: bool,
                    combined: GuardOutcome)
      requires Numbered() && pc == Recording(view, candidate, status, changedAfter, combined) && stepNo == state.step
      modifies `state, `store, `seqNo, `pc
      ensures pc.Idle? && Numbered() && Goal(inp) == old(Goal(inp))
    {
      hide Apply, BuildFrame, AssessFrame, AssessAttempts, AssessEffect, Refused, Mint, Combine, NextControl,
           NextCandidate,
           OverBudget, KernelMachine.Effect, Accounts;
      var record := StepRecord(stepNo, view.frame.frameId, view.seen.revision, Some(candidate.key), None,
                               Some(status), changedAfter);
      if !combined.kind.NoGuard? {
        Put(stepNo, StepRecorded(record), Escalating(combined.kind), inp);
        GuardFailure(combined.kind, inp);
      } else {
        Put(stepNo, StepRecorded(record), Idle, inp);
      }
    }

    /** `run()`: a scheduler over `step()`; `used` is the number of steps it made. */
    method Run(inputs: seq<StepInput>) returns (used: nat)
      requires Numbered() && pc.Idle?
      modifies this
      ensures Scheduled(Here(), used) == Schedule(setup, old(Here()), inputs)
      ensures used == |inputs| || !state.status.Running?
    {
      used := 0;
      ghost var before := Here();
      while state.status.Running? && used < |inputs|
        invariant used <= |inputs| && Numbered() && pc.Idle?
        invariant var rest := Schedule(setup, Here(), inputs[used..]);
                  Schedule(setup, before, inputs) == rest.(steps := used + rest.steps)
      {
        assert inputs[used..][1..] == inputs[used + 1..];
        StepEndsAtRest(setup, Here(), inputs[used]);
        Step(inputs[used]);
        used := used + 1;
      }
    }
  }

  lemma {:induction false} DriveEndsAtRest(c: Setup, m: Machine, inp: StepInput)
    ensures Drive(c, m, inp).pc.Idle?
    decreases m.pc.Begin?, Rank(m.pc)
  {
    var move := Next(c, m.st, m.pc, inp);
    NextDescends(c, m.st, m.pc, inp);
    if !move.Stop? { DriveEndsAtRest(c, Make(m, move), inp); } else { OnlyIdleStops(c, m.st, m.pc, inp); }
  }

  lemma OnlyIdleStops(c: Setup, st: RuntimeState, pc: Pc, inp: StepInput)
    ensures Next(c, st, pc, inp).Stop? ==> pc.Idle?
  {
  }

  lemma StepEndsAtRest(c: Setup, m: Machine, inp: StepInput)
    ensures StepRun(c, m, inp).pc.Idle?
  {
    DriveEndsAtRest(c, m.(pc := Begin), inp);
  }
}
