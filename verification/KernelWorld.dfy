/** Invariants that tie control positions to the observed world: what a frame is bound to, why a
    key is excluded, which actions ran, which operations are open. */
module KernelWorld {
  import opened JsonModel
  import opened KernelTypes
  import opened KernelReduce
  import opened KernelGuards
  import opened KernelMachine

  // ---- binding of control positions to the observed world --------------------------------

  ghost predicate InView(st: RuntimeState, v: View) {
    st.observation == Some(v.seen) && v.frame.revision == v.seen.revision && v.outcome == QUIET
  }

  ghost predicate Bound(st: RuntimeState, pc: Pc) {
    match pc
    case Offering(o) => st.observation == Some(o)
    case Building(o) => st.observation == Some(o)
    case Assessing(o, f) => st.observation == Some(o) && f.revision == o.revision
    case FrameGuarded(v) => v.outcome == GuardOutcome(Cycle, {}, true)
    case Deciding(v) => InView(st, v)
    case Validating(v, _) => InView(st, v)
    case Executing(v, cand, _) => InView(st, v) && !Attempted(st, v.seen.revision, cand.key)
    case Crashed(v, cand, _) => InView(st, v) && !Attempted(st, v.seen.revision, cand.key)
    case PostObserving(v, cand, _) => InView(st, v) && Attempted(st, v.seen.revision, cand.key)
    case Accounting(v, cand, _, changed) =>
      && v.outcome == QUIET
      && Attempted(st, v.seen.revision, cand.key)
      && (changed || st.Revision() == v.seen.revision)
    case _ => true
  }

  /** What one event does to the observed world. */
  lemma WorldEffect(st: RuntimeState, e: Event)
    ensures var n := Apply(st, e);
            && (if e.body.Observed? then n.observation == Some(e.body.observation) else n.observation == st.observation)
            && (e.body.ReceiptRecorded? ==> Attempted(n, st.Revision(), e.body.key))
            && (forall r, k :: Attempted(st, r, k) ==> Attempted(n, r, k))
            && (!e.body.ReceiptRecorded? && !e.body.OperationResolved? ==>
                  forall r, k :: Attempted(n, r, k) ==> Attempted(st, r, k))
  {
    var n := Apply(st, e);
    if e.body.ReceiptRecorded? { assert n.attempts[|st.attempts|] in n.attempts; }
  }

  /** After the accounting nothing is bound any more. */
  lemma BoundNoMore(c: Setup, m: Machine, inp: StepInput)
    requires !m.pc.Begin? && Rank(m.pc) < 5
    ensures var n := Make(m, Next(c, m.st, m.pc, inp)); Bound(n.st, n.pc)
  {
    hide Apply, Refused, AssessEffect, BuildFrame, Combine, Attempted, NextControl, NextCandidate, OverBudget,
         ActionRecord, Mint,
         KernelMachine.Effect, Accounts;
  }

  lemma BoundLate(c: Setup, m: Machine, inp: StepInput)
    requires Bound(m.st, m.pc) && (m.pc.Executing? || m.pc.Crashed? || m.pc.PostObserving?)
    ensures var n := Make(m, Next(c, m.st, m.pc, inp)); Bound(n.st, n.pc)
  {
    hide Apply, Refused, AssessEffect, BuildFrame, Combine, Attempted, NextControl, NextCandidate, OverBudget,
         ActionRecord, Mint;
    var move := Next(c, m.st, m.pc, inp);
    if move.Say? { WorldEffect(m.st, Event(|m.log| + 1, move.step, move.body)); }
  }

  lemma BoundEarly(c: Setup, m: Machine, inp: StepInput)
    requires Bound(m.st, m.pc) && (m.pc.Begin? || Rank(m.pc) >= 8)
    ensures var n := Make(m, Next(c, m.st, m.pc, inp)); Bound(n.st, n.pc)
  {
    hide Apply, Refused, AssessEffect, BuildFrame, Combine, Attempted, OverBudget, ActionRecord, Accounts, Mint;
    var move := Next(c, m.st, m.pc, inp);
    if move.Say? { WorldEffect(m.st, Event(|m.log| + 1, move.step, move.body)); }
    if Rank(m.pc) < 10 { // the decision
    } else if Rank(m.pc) < 12 { // the frame
    } else { // before the frame exists
    }
  }

  lemma MoveKeepsBound(c: Setup, m: Machine, inp: StepInput)
    requires Bound(m.st, m.pc)
    ensures var n := Make(m, Next(c, m.st, m.pc, inp)); Bound(n.st, n.pc)
  {
    hide Next, Make, Bound;
    if m.pc.Begin? || Rank(m.pc) >= 8 {
      BoundEarly(c, m, inp);
    } else if Rank(m.pc) >= 5 {
      BoundLate(c, m, inp);
    } else {
      BoundNoMore(c, m, inp);
    }
  }

  // ---- exclusions: a dead key was attempted on the revision it is dead on -----------------

  ghost predicate Excluded(st: RuntimeState) {
    forall k | k in st.deadActions :: Attempted(st, st.Revision(), k)
  }

  lemma ApplyKeepsExcluded(st: RuntimeState, e: Event)
    requires Excluded(st)
    requires e.body.GuardRaised? ==> forall k | k in e.body.outcome.deadKeys :: Attempted(st, st.Revision(), k)
    ensures Excluded(Apply(st, e))
  {
    hide Attempted;
    WorldEffect(st, e);
  }

  /** Every key a guard excludes was attempted on the current revision. */
  lemma GuardsExcludeAttempted(c: Setup, st: RuntimeState, pc: Pc, inp: StepInput)
    requires Bound(st, pc)
    ensures var move := Next(c, st, pc, inp);
            move.Say? && move.body.GuardRaised? ==>
              forall k | k in move.body.outcome.deadKeys :: Attempted(st, st.Revision(), k)
  {
    hide Refused, BuildFrame, Combine, Attempted, OverBudget, ActionRecord, Keys, ControlRecord;
  }

  lemma MoveKeepsExcluded(c: Setup, m: Machine, inp: StepInput)
    requires Bound(m.st, m.pc) && Excluded(m.st)
    ensures Excluded(Make(m, Next(c, m.st, m.pc, inp)).st)
  {
    hide Apply, Excluded, Bound;
    var move := Next(c, m.st, m.pc, inp);
    GuardsExcludeAttempted(c, m.st, m.pc, inp);
    if move.Say? { ApplyKeepsExcluded(m.st, Event(|m.log| + 1, move.step, move.body)); }
  }

  // ---- executions: no action key runs twice on one revision -------------------------------

  /** (revision, key) of every recorded intent: the executions of the run, in order. */
  ghost function Executions(c: Setup, log: seq<Event>): seq<(string, string)> {
    if log == [] then []
    else
      var before := log[..|log| - 1];
      var body := log[|log| - 1].body;
      Executions(c, before)
      + if body.IntentRecorded? then [(Replay(InitialState(c), before).Revision(), body.intentKey)] else []
  }

  predicate Acting(pc: Pc) { pc.Executing? || pc.Crashed? }

  ghost predicate Unrepeated(c: Setup, m: Machine) {
    var ran := Executions(c, m.log);
    && (forall i, j | 0 <= i < j < |ran| :: ran[i] != ran[j])
    && (Acting(m.pc) ==> ran != [] && ran[|ran| - 1] == (m.pc.view.seen.revision, m.pc.cand.key))
    && (forall i | 0 <= i < |ran| ::
          Attempted(m.st, ran[i].0, ran[i].1) || (Acting(m.pc) && i == |ran| - 1))
  }

  /** What one move does to the action under way. */
  lemma ActingMoves(c: Setup, st: RuntimeState, pc: Pc, inp: StepInput)
    requires Bound(st, pc)
    ensures var move := Next(c, st, pc, inp);
            && (move.Go? ==> !Acting(pc) && !Acting(move.pc))
            && (move.Say? ==> (move.body.IntentRecorded? <==> Acting(move.pc) && !Acting(pc)))
            && (move.Say? && Acting(pc) ==> (move.body.ReceiptRecorded? <==> !Acting(move.pc)))
            && (move.Say? && Acting(pc) && Acting(move.pc) ==>
                  move.pc.view == pc.view && move.pc.cand == pc.cand && move.pc.op == pc.op)
            && (move.Say? && move.body.ReceiptRecorded? ==> Acting(pc) && move.body.key == pc.cand.key)
            && (move.Say? && move.body.IntentRecorded? ==>
                  && pc.Validating?
                  && move.pc.Executing?
                  && move.pc.view == pc.view
                  && move.body.intent == move.pc.op == Mint(c, st, move.pc.cand)
                  && move.body.intentKey == move.pc.cand.key
                  && pc.decision.frameId == pc.view.frame.frameId
                  && pc.decision.candidateId.Some? && pc.decision.control.None?
                  && pc.view.frame.Find(pc.decision.candidateId.value) == Some(move.pc.cand)
                  && !Refused(st, move.pc.cand, inp.environmentVeto, inp.hostVeto)
                  && !Attempted(st, st.Revision(), move.pc.cand.key))
  {
    hide Refused, BuildFrame, Combine, Attempted, AssessEffect, Mint, OverBudget, ActionRecord, Keys, ControlRecord;
  }

  lemma ExecutionsAppend(c: Setup, m: Machine, step: int, body: Payload, pc: Pc)
    requires m.st == Replay(InitialState(c), m.log)
    ensures Executions(c, Record(m, step, body, pc).log)
         == Executions(c, m.log) + if body.IntentRecorded? then [(m.st.Revision(), body.intentKey)] else []
  {
    var log := Record(m, step, body, pc).log;
    assert log[..|log| - 1] == m.log;
  }

  lemma MoveKeepsUnrepeated(c: Setup, m: Machine, inp: StepInput)
    requires m.st == Replay(InitialState(c), m.log) && Bound(m.st, m.pc) && Unrepeated(c, m)
    ensures Unrepeated(c, Make(m, Next(c, m.st, m.pc, inp)))
  {
    hide Apply, Attempted, Next, Refused;
    var move := Next(c, m.st, m.pc, inp);
    ActingMoves(c, m.st, m.pc, inp);
    if move.Say? {
      WorldEffect(m.st, Event(|m.log| + 1, move.step, move.body));
      ExecutionsAppend(c, m, move.step, move.body, move.pc);
    }
  }
}
