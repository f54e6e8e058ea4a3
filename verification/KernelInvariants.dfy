/** Invariants of every move of the kernel machine, each with the lemma that one move keeps it. */
module KernelInvariants {
  import opened KernelTypes
  import opened KernelReduce
  import opened KernelGuards
  import opened KernelMachine

  // ---- the log: derived state, numbering, terminal events --------------------------------

  ghost predicate Derived(c: Setup, m: Machine) { m.st == Replay(InitialState(c), m.log) }

  ghost predicate Numbered(m: Machine) {
    forall i | 0 <= i < |m.log| :: m.log[i].seqNo == i + 1 && m.log[i].step <= m.st.step
  }

  predicate AtRest(pc: Pc) { pc.Idle? || pc.Begin? }

  ghost predicate Finality(m: Machine) {
    && m.log != []
    && (m.st.status.Terminal() ==> AtRest(m.pc))
    && (m.st.status.Terminal() <==> m.log[|m.log| - 1].body.RunFinished?)
    && (forall i | 0 <= i < |m.log| - 1 :: !m.log[i].body.RunFinished?)
  }

  predicate Satisfies(e: Event) { e.body == Verified(Satisfied) }

  predicate Succeeds(e: Event) { e.body.RunFinished? && e.body.finalStatus.Succeeded? }

  ghost predicate Evidence(m: Machine) {
    && m.log != []
    && (forall i | 0 <= i < |m.log| && Succeeds(m.log[i]) :: i > 0 && Satisfies(m.log[i - 1]))
    && (forall i | 0 <= i < |m.log| - 1 && Satisfies(m.log[i]) :: Succeeds(m.log[i + 1]))
    && (Satisfies(m.log[|m.log| - 1]) <==> m.pc == Judging(Satisfied))
    && (m.st.status.Succeeded? <==> Succeeds(m.log[|m.log| - 1]))
  }

  lemma RecordKeepsDerived(c: Setup, m: Machine, step: int, body: Payload, pc: Pc)
    requires Derived(c, m)
    ensures Derived(c, Record(m, step, body, pc))
  {
    ReplayAppend(InitialState(c), m.log, Event(|m.log| + 1, step, body));
  }

  lemma MoveKeepsDerived(c: Setup, m: Machine, move: Move)
    requires Derived(c, m)
    ensures Derived(c, Make(m, move))
  {
    if move.Say? { RecordKeepsDerived(c, m, move.step, move.body, move.pc); }
  }

  lemma RecordKeepsNumbered(m: Machine, step: int, body: Payload, pc: Pc)
    requires Numbered(m)
    ensures Numbered(Record(m, step, body, pc)) && Record(m, step, body, pc).st.step == Max(m.st.step, step)
  {
  }

  lemma MoveKeepsNumbered(c: Setup, m: Machine, inp: StepInput)
    requires Numbered(m)
    ensures Numbered(Make(m, Next(c, m.st, m.pc, inp)))
  {
    var move := Next(c, m.st, m.pc, inp);
    if move.Say? { RecordKeepsNumbered(m, move.step, move.body, move.pc); }
  }

  lemma FinishingMoves(c: Setup, st: RuntimeState, pc: Pc, inp: StepInput)
    requires st.status.Terminal() ==> AtRest(pc)
    ensures var move := Next(c, st, pc, inp);
            && (move.Say? ==> !st.status.Terminal())
            && (move.Go? && st.status.Terminal() ==> AtRest(move.pc))
            && (move.Say? && move.body.RunFinished? ==> AtRest(move.pc) && move.body.finalStatus.Terminal())
            && (move.Say? ==> !move.body.Resumed?)
  {
    hide BuildFrame, AssessFrame, AssessAttempts, AssessEffect, Refused, Mint, Combine, OverBudget, Accounts,
         ActionRecord;
  }

  lemma RecordKeepsFinality(m: Machine, step: int, body: Payload, pc: Pc)
    requires Finality(m) && !m.st.status.Terminal()
    requires body.RunFinished? ==> AtRest(pc) && body.finalStatus.Terminal()
    ensures Finality(Record(m, step, body, pc))
  {
  }

  lemma MoveKeepsFinality(c: Setup, m: Machine, inp: StepInput)
    requires Finality(m)
    ensures Finality(Make(m, Next(c, m.st, m.pc, inp)))
  {
    var move := Next(c, m.st, m.pc, inp);
    FinishingMoves(c, m.st, m.pc, inp);
    if move.Say? { RecordKeepsFinality(m, move.step, move.body, move.pc); }
  }

  lemma JudgingMoves(c: Setup, st: RuntimeState, pc: Pc, inp: StepInput)
    ensures var move := Next(c, st, pc, inp);
            && (pc == Judging(Satisfied) <==> move.Say? && move.body.RunFinished? && move.body.finalStatus.Succeeded?)
            && (move.Say? ==> (move.body == Verified(Satisfied) <==> move.pc == Judging(Satisfied)))
            && (move.Go? ==> move.pc != Judging(Satisfied))
  {
    hide BuildFrame, AssessFrame, AssessAttempts, AssessEffect, Refused, Mint, Combine, OverBudget, Accounts,
         ActionRecord;
  }

  lemma RecordKeepsEvidence(m: Machine, step: int, body: Payload, pc: Pc)
    requires Evidence(m) && !m.st.status.Terminal()
    requires m.pc == Judging(Satisfied) <==> body.RunFinished? && body.finalStatus.Succeeded?
    requires body == Verified(Satisfied) <==> pc == Judging(Satisfied)
    ensures Evidence(Record(m, step, body, pc))
  {
    hide Apply;
    var e := Event(|m.log| + 1, step, body);
    SuccessEffect(m.st, e);
    var n := Record(m, step, body, pc);
    assert n.log == m.log + [e];
  }

  lemma SuccessEffect(st: RuntimeState, e: Event)
    ensures Apply(st, e).status.Succeeded? ==> st.status.Succeeded? || Succeeds(e)
    ensures Succeeds(e) ==> Apply(st, e).status.Succeeded?
    ensures !st.status.Terminal() && !e.body.RunFinished? ==> !Apply(st, e).status.Succeeded?
  {
  }

  lemma MoveKeepsEvidence(c: Setup, m: Machine, inp: StepInput)
    requires Finality(m) && Evidence(m)
    ensures Evidence(Make(m, Next(c, m.st, m.pc, inp)))
  {
    var move := Next(c, m.st, m.pc, inp);
    FinishingMoves(c, m.st, m.pc, inp);
    JudgingMoves(c, m.st, m.pc, inp);
    if move.Say? { RecordKeepsEvidence(m, move.step, move.body, move.pc); }
  }
}
