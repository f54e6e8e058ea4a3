/** Invariants that count: open operations, policy calls per frame fingerprint, guard failures,
    unsatisfied verdicts, minted operation ids and frame versions. */
module KernelLedger {
  import opened JsonModel
  import opened KernelTypes
  import opened KernelReduce
  import opened KernelGuards
  import opened KernelMachine
  import opened KernelWorld
  import opened Logs

  // ---- operations whose outcome is open ---------------------------------------------------

  const OPENS_OPERATION: Event -> bool := (e: Event) => e.body.ReceiptRecorded? && e.body.status.Unresolved()

  const CLOSES_OPERATION: Event -> bool := (e: Event) => e.body.OperationResolved?

  /** No receipt has been recorded in this step yet, and the query stage is over. */
  predicate BeforeReceipt(pc: Pc) { 6 <= Rank(pc) <= 14 }

  ghost predicate Settled(m: Machine) {
    && |m.st.unresolved| <= 1
    && Count(m.log, OPENS_OPERATION) == Count(m.log, CLOSES_OPERATION) + |m.st.unresolved|
    && (BeforeReceipt(m.pc) ==> m.st.unresolved == [])
    && (m.pc.Resolving? ==>
          && |m.pc.operations| == 1
          && (m.st.unresolved == m.pc.operations || (m.pc.k > 0 && m.st.unresolved == [])))
  }

  lemma UnresolvedEffect(st: RuntimeState, e: Event)
    requires |st.unresolved| <= 1
    requires e.body.ReceiptRecorded? ==> st.unresolved == []
    requires e.body.OperationResolved? ==> st.unresolved != [] && st.unresolved[0].operationId == e.body.resolved
    ensures var n := Apply(st, e).unresolved;
            if OPENS_OPERATION(e) then |n| == 1
            else if e.body.OperationResolved? then n == []
            else n == st.unresolved
  {
  }

  lemma SettlingMoves(c: Setup, st: RuntimeState, pc: Pc, inp: StepInput)
    requires |st.unresolved| <= 1
    requires BeforeReceipt(pc) ==> st.unresolved == []
    requires pc.Resolving? ==> |pc.operations| == 1
    requires pc.Resolving? ==> st.unresolved == pc.operations || (pc.k > 0 && st.unresolved == [])
    ensures var move := Next(c, st, pc, inp);
            && (move.Say? && move.body.ReceiptRecorded? ==>
                  st.unresolved == [] && !BeforeReceipt(move.pc) && !move.pc.Resolving?)
            && (move.Say? && move.body.OperationResolved? ==>
                  pc.Resolving? && pc.k == 0 && st.unresolved == pc.operations
                  && move.body.resolved == st.unresolved[0].operationId)
            && (!move.Stop? && BeforeReceipt(move.pc) ==> st.unresolved == [])
            && (!move.Stop? && move.pc.Resolving? ==>
                  if pc.Resolving? then move.pc.operations == pc.operations && move.pc.k == pc.k + 1
                  else move.Go? && move.pc == Resolving(st.unresolved, 0) && st.unresolved != [])
  {
    hide Refused, BuildFrame, Combine, AssessEffect, AssessFrame, AssessAttempts, Mint, OverBudget, ActionRecord,
         Keys, ControlRecord, Attempted, Accounts, KernelMachine.Effect;
  }

  lemma MoveKeepsSettled(c: Setup, m: Machine, inp: StepInput)
    requires Settled(m)
    ensures Settled(Make(m, Next(c, m.st, m.pc, inp)))
  {
    hide Apply, Next, Rank, Count;
    var move := Next(c, m.st, m.pc, inp);
    SettlingMoves(c, m.st, m.pc, inp);
    if move.Say? {
      var e := Event(|m.log| + 1, move.step, move.body);
      UnresolvedEffect(m.st, e);
      CountAppend(m.log, e, OPENS_OPERATION);
      CountAppend(m.log, e, CLOSES_OPERATION);
      assert !(OPENS_OPERATION(e) && CLOSES_OPERATION(e));
    }
  }

  // ---- policy calls per frame fingerprint -------------------------------------------------

  /** The fingerprint of the last frame built. */
  ghost function LastFrame(log: seq<Event>): Option<string> {
    if log == [] then None
    else
      var body := log[|log| - 1].body;
      if body.FrameBuilt? then Some(body.fingerprint) else LastFrame(log[..|log| - 1])
  }

  /** The policy was called: it decided, or it raised. */
  predicate CallsPolicy(b: Payload) { b.DecisionMade? || b == ErrorRaised(PolicyStage) }

  const POLICY_CALLED: Event -> bool := (e: Event) => CallsPolicy(e.body)

  ghost function PolicyCalls(log: seq<Event>, fingerprint: string): nat {
    if log == [] then 0
    else
      var before := log[..|log| - 1];
      PolicyCalls(before, fingerprint)
      + if CallsPolicy(log[|log| - 1].body) && LastFrame(before) == Some(fingerprint) then 1 else 0
  }

  /** The fingerprint of the frame about to be shown to the policy. */
  function Proposed(pc: Pc): Option<string> {
    match pc
    case Assessing(_, f) => Some(f.fingerprint)
    case Deciding(v) => Some(v.frame.fingerprint)
    case _ => None
  }

  ghost predicate Rationed(c: Setup, m: Machine) {
    && (forall fp :: PolicyCalls(m.log, fp) + (if Proposed(m.pc) == Some(fp) then 1 else 0) <= m.st.Visits(fp))
    && (forall fp :: PolicyCalls(m.log, fp) == 0 || PolicyCalls(m.log, fp) < c.config.maxFrameVisits)
    && (Proposed(m.pc).Some? ==> LastFrame(m.log) == Proposed(m.pc))
    && (m.pc.Deciding? ==> m.st.Visits(m.pc.view.frame.fingerprint) < c.config.maxFrameVisits)
  }

  lemma VisitEffect(st: RuntimeState, e: Event, fp: string)
    ensures Apply(st, e).Visits(fp)
         == st.Visits(fp) + if e.body.FrameBuilt? && e.body.fingerprint == fp then 1 else 0
  {
  }

  lemma ProposingMoves(c: Setup, st: RuntimeState, pc: Pc, inp: StepInput)
    requires Bound(st, pc)
    requires pc.Deciding? ==> st.Visits(pc.view.frame.fingerprint) < c.config.maxFrameVisits
    ensures var move := Next(c, st, pc, inp);
            && (move.Say? && CallsPolicy(move.body) <==> pc.Deciding?)
            && (move.Say? ==>
                  Proposed(move.pc) == if move.body.FrameBuilt? then Some(move.body.fingerprint) else None)
            && (move.Go? && Proposed(move.pc).Some? ==> Proposed(move.pc) == Proposed(pc))
            && (!move.Stop? && move.pc.Deciding? ==>
                  move.Go? && st.Visits(move.pc.view.frame.fingerprint) < c.config.maxFrameVisits)
  {
    hide Refused, BuildFrame, Combine, AssessEffect, AssessAttempts, Mint, Attempted, OverBudget, Accounts,
         ActionRecord, KernelMachine.Effect, Keys, ControlRecord;
  }

  lemma PolicyCallsAppend(log: seq<Event>, e: Event, fp: string)
    ensures PolicyCalls(log + [e], fp)
         == PolicyCalls(log, fp) + if CallsPolicy(e.body) && LastFrame(log) == Some(fp) then 1 else 0
    ensures LastFrame(log + [e]) == if e.body.FrameBuilt? then Some(e.body.fingerprint) else LastFrame(log)
  {
    assert (log + [e])[..|log|] == log;
  }

  lemma MoveKeepsRationed(c: Setup, m: Machine, inp: StepInput)
    requires Bound(m.st, m.pc) && Rationed(c, m)
    ensures Rationed(c, Make(m, Next(c, m.st, m.pc, inp)))
  {
    hide Apply, Next, Bound;
    var move := Next(c, m.st, m.pc, inp);
    ProposingMoves(c, m.st, m.pc, inp);
    if move.Say? {
      var e := Event(|m.log| + 1, move.step, move.body);
      forall fp
        ensures PolicyCalls(m.log + [e], fp)
             == PolicyCalls(m.log, fp) + if CallsPolicy(e.body) && LastFrame(m.log) == Some(fp) then 1 else 0
        ensures Apply(m.st, e).Visits(fp)
             == m.st.Visits(fp) + if e.body.FrameBuilt? && e.body.fingerprint == fp then 1 else 0
      {
        VisitEffect(m.st, e, fp);
        PolicyCallsAppend(m.log, e, fp);
      }
    }
  }

  /** The policy is only ever asked about a frame. */
  ghost predicate Asked(log: seq<Event>) {
    forall i | 0 <= i < |log| && CallsPolicy(log[i].body) :: LastFrame(log[..i]).Some?
  }

  lemma RecordKeepsAsked(log: seq<Event>, e: Event)
    requires Asked(log) && (CallsPolicy(e.body) ==> LastFrame(log).Some?)
    ensures Asked(log + [e])
  {
    var longer := log + [e];
    forall i | 0 <= i < |longer| && CallsPolicy(longer[i].body) ensures LastFrame(longer[..i]).Some? {
      assert longer[..i] == log[..i];
      assert log[..|log|] == log;
    }
  }

  lemma MoveKeepsAsked(c: Setup, m: Machine, inp: StepInput)
    requires Bound(m.st, m.pc) && Rationed(c, m) && Asked(m.log)
    ensures Asked(Make(m, Next(c, m.st, m.pc, inp)).log)
  {
    hide Next, Apply, Bound, Asked;
    var move := Next(c, m.st, m.pc, inp);
    ProposingMoves(c, m.st, m.pc, inp);
    if move.Say? { RecordKeepsAsked(m.log, Event(|m.log| + 1, move.step, move.body)); }
  }

  // ---- guard failures and verdicts --------------------------------------------------------

  predicate FailsGuard(b: Payload) { b.GuardRaised? && (b.outcome.kind.Repeat? || b.outcome.kind.NoProgress?) }

  const GUARDS_FAILURE: Event -> bool := (e: Event) => FailsGuard(e.body)

  const UNSATISFIES: Event -> bool := (e: Event) => e.body == Verified(Unsatisfied)

  /** The guard that was just raised has not been escalated yet. */
  predicate Pending(pc: Pc) { pc.Escalating? || (pc.Recording? && !pc.combined.kind.NoGuard?) }

  /** `limit` failures are tolerated while the run goes on; the last one ends it. */
  predicate Within(n: nat, limit: int, last: bool) {
    n == 0 || n < limit || (last && (n == 1 || n == limit))
  }

  predicate Ending(m: Machine) { m.st.status.Terminal() || m.pc.Failing? }

  ghost predicate GuardsBounded(c: Setup, m: Machine) {
    && Count(m.log, GUARDS_FAILURE) <= m.st.guardEscalations
    && Within(Count(m.log, GUARDS_FAILURE), c.config.maxGuardEscalations, Ending(m) || Pending(m.pc))
  }

  ghost predicate VerdictsBounded(c: Setup, m: Machine) {
    && Count(m.log, UNSATISFIES) <= |m.st.verifications|
    && Within(Count(m.log, UNSATISFIES), c.config.maxVerifications, Ending(m) || m.pc == Judging(Unsatisfied))
  }

  lemma FailureEffect(st: RuntimeState, e: Event)
    ensures var n := Apply(st, e);
            && n.guardEscalations
               == st.guardEscalations + (if e.body.GuardRaised? && e.body.outcome.escalate then 1 else 0)
            && |n.verifications| == |st.verifications| + (if e.body.Verified? then 1 else 0)
            && (e.body.RunFinished? ==> n.status == e.body.finalStatus)
  {
  }

  lemma EscalatingMoves(c: Setup, st: RuntimeState, pc: Pc, inp: StepInput)
    requires Bound(st, pc)
    ensures var move := Next(c, st, pc, inp);
            && (move.Say? && FailsGuard(move.body) <==> move.Say? && !Pending(pc) && Pending(move.pc))
            && (move.Say? && FailsGuard(move.body) ==> move.body.outcome.escalate)
            && (move.Go? ==> !Pending(move.pc) && (Pending(pc) ==> pc.Escalating?))
            && (move.Go? && pc.Escalating? ==>
                  move.pc.Failing? || (move.pc.Idle? && st.guardEscalations < c.config.maxGuardEscalations))
            && (move.Say? && Pending(pc) ==> move.pc.Escalating?)
  {
    hide Refused, BuildFrame, Mint, OverBudget, ActionRecord, Keys, ControlRecord;
  }

  lemma JudgmentMoves(c: Setup, st: RuntimeState, pc: Pc, inp: StepInput)
    ensures var move := Next(c, st, pc, inp);
            && (move.Say? && move.body == Verified(Unsatisfied) <==> move.Say? && move.pc == Judging(Unsatisfied))
            && (move.Go? ==> move.pc != Judging(Unsatisfied))
            && (pc == Judging(Unsatisfied) ==>
                  move.Go? && (move.pc.Failing? || (move.pc.Idle? && |st.verifications| < c.config.maxVerifications)))
  {
    hide Refused, BuildFrame, Mint, AssessFrame, AssessEffect, AssessAttempts, Combine, OverBudget, ActionRecord,
         Keys, ControlRecord, Attempted, Accounts, KernelMachine.Effect;
  }

  lemma EndingMoves(c: Setup, st: RuntimeState, pc: Pc, inp: StepInput)
    ensures var move := Next(c, st, pc, inp);
            && (st.status.Terminal() && (pc.Begin? || pc.Idle?) ==> !move.Say?)
            && (pc.Failing? ==> move.Say? && move.body.RunFinished? && move.body.finalStatus.Terminal())
  {
    hide Refused, BuildFrame, Mint, AssessFrame, AssessEffect, AssessAttempts, Combine, OverBudget, ActionRecord,
         Keys, ControlRecord, Attempted, Accounts, KernelMachine.Effect;
  }

  lemma MoveKeepsGuardsBounded(c: Setup, m: Machine, inp: StepInput)
    requires Bound(m.st, m.pc) && GuardsBounded(c, m)
    requires m.st.status.Terminal() ==> m.pc.Idle? || m.pc.Begin?
    ensures GuardsBounded(c, Make(m, Next(c, m.st, m.pc, inp)))
  {
    hide Apply, Next, Bound;
    var move := Next(c, m.st, m.pc, inp);
    EndingMoves(c, m.st, m.pc, inp);
    EscalatingMoves(c, m.st, m.pc, inp);
    if move.Say? {
      var e := Event(|m.log| + 1, move.step, move.body);
      FailureEffect(m.st, e);
      CountAppend(m.log, e, GUARDS_FAILURE);
    }
  }

  lemma MoveKeepsVerdictsBounded(c: Setup, m: Machine, inp: StepInput)
    requires VerdictsBounded(c, m)
    requires m.st.status.Terminal() ==> m.pc.Idle? || m.pc.Begin?
    ensures VerdictsBounded(c, Make(m, Next(c, m.st, m.pc, inp)))
  {
    hide Apply, Next;
    var move := Next(c, m.st, m.pc, inp);
    EndingMoves(c, m.st, m.pc, inp);
    JudgmentMoves(c, m.st, m.pc, inp);
    if move.Say? {
      var e := Event(|m.log| + 1, move.step, move.body);
      FailureEffect(m.st, e);
      CountAppend(m.log, e, UNSATISFIES);
    }
  }
}
