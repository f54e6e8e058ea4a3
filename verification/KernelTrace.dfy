/** Invariants on the shape of the log: minted ids, intents paired with receipts, frame versions,
    and the five events that justify every intent. */
module KernelTrace {
  import opened JsonModel
  import opened KernelTypes
  import opened KernelReduce
  import opened KernelGuards
  import opened KernelMachine
  import opened KernelWorld

  // ---- operation ids ----------------------------------------------------------------------

  ghost function Intents(log: seq<Event>): seq<OperationId> {
    if log == [] then []
    else
      var body := log[|log| - 1].body;
      Intents(log[..|log| - 1]) + if body.IntentRecorded? then [body.intent] else []
  }

  /** The step has observed and has not recorded an intent yet. */
  predicate Fresh(pc: Pc) { 8 <= Rank(pc) <= 13 }

  ghost predicate Minting(m: Machine) {
    var ids := Intents(m.log);
    && (forall i | 0 <= i < |ids| ::
          ids[i].Minted? && ids[i].step <= m.st.step && (Fresh(m.pc) ==> ids[i].step < m.st.step))
    && (forall i, j | 0 <= i < j < |ids| :: ids[i] != ids[j])
  }

  lemma FreshMoves(c: Setup, st: RuntimeState, pc: Pc, inp: StepInput)
    ensures var move := Next(c, st, pc, inp);
            && (move.Say? ==> move.step == if pc.Observing? then st.step + 1 else st.step)
            && (!move.Stop? && Fresh(move.pc) ==> Fresh(pc) || (pc.Observing? && move.Say?))
            && (pc.Observing? ==> move.Say? && (move.body.Observed? || move.body.ObserveFailed?))
  {
    hide Refused, BuildFrame, Combine, AssessEffect, AssessAttempts, AssessFrame, Mint, OverBudget, ActionRecord,
         Keys, ControlRecord, Attempted, Accounts, KernelMachine.Effect;
  }

  lemma StepEffect(st: RuntimeState, e: Event)
    ensures Apply(st, e).step == Max(st.step, e.step)
  {
  }

  lemma MoveKeepsMinting(c: Setup, m: Machine, inp: StepInput)
    requires Bound(m.st, m.pc) && Minting(m)
    ensures Minting(Make(m, Next(c, m.st, m.pc, inp)))
  {
    hide Next, Bound, Refused, Apply, Attempted;
    var move := Next(c, m.st, m.pc, inp);
    FreshMoves(c, m.st, m.pc, inp);
    ActingMoves(c, m.st, m.pc, inp);
    if move.Say? {
      var n := Make(m, move);
      assert n.log[..|n.log| - 1] == m.log;
      StepEffect(m.st, Event(|m.log| + 1, move.step, move.body));
      assert n.st.step == move.step;
      assert move.body.IntentRecorded? ==> Fresh(m.pc) && !Fresh(n.pc);
    }
  }

  // ---- every intent is followed by its receipt --------------------------------------------

  /** The key of an intent whose receipt is not recorded yet. */
  ghost function OpenIntent(log: seq<Event>): Option<string> {
    if log == [] then None
    else
      match log[|log| - 1].body
      case IntentRecorded(_, key, _, _) => Some(key)
      case ReceiptRecorded(_, _, _, _, _) => None
      case _ => OpenIntent(log[..|log| - 1])
  }

  ghost predicate Paired(m: Machine) {
    && OpenIntent(m.log) == (if Acting(m.pc) then Some(m.pc.cand.key) else None)
    && (forall i | 0 <= i < |m.log| && m.log[i].body.IntentRecorded? :: OpenIntent(m.log[..i]) == None)
    && (forall i | 0 <= i < |m.log| && m.log[i].body.ReceiptRecorded? ::
          OpenIntent(m.log[..i]) == Some(m.log[i].body.key))
  }

  lemma RecordKeepsPaired(m: Machine, step: int, body: Payload, pc: Pc)
    requires Paired(m)
    requires body.IntentRecorded? ==> !Acting(m.pc) && Acting(pc) && pc.cand.key == body.intentKey
    requires body.ReceiptRecorded? ==> Acting(m.pc) && !Acting(pc) && m.pc.cand.key == body.key
    requires !body.IntentRecorded? && !body.ReceiptRecorded? ==>
               Acting(m.pc) == Acting(pc) && (Acting(pc) ==> m.pc.cand == pc.cand)
    ensures Paired(Record(m, step, body, pc))
  {
    hide Apply;
    var n := Record(m, step, body, pc);
    assert n.log[..|m.log|] == m.log;
    assert forall i | 0 <= i < |m.log| :: n.log[..i] == m.log[..i];
  }

  lemma MoveKeepsPaired(c: Setup, m: Machine, inp: StepInput)
    requires Bound(m.st, m.pc) && Paired(m)
    ensures Paired(Make(m, Next(c, m.st, m.pc, inp)))
  {
    hide Next, Bound, Refused, Apply;
    var move := Next(c, m.st, m.pc, inp);
    ActingMoves(c, m.st, m.pc, inp);
    if move.Say? { RecordKeepsPaired(m, move.step, move.body, move.pc); }
  }

  // ---- frame ids --------------------------------------------------------------------------

  /** Frame versions strictly increase, so no two frames of a run share an id. */
  ghost predicate Versioned(m: Machine) {
    && (forall i | 0 <= i < |m.log| && m.log[i].body.FrameBuilt? :: m.log[i].body.frameId.version < m.st.stateVersion)
    && (forall i, j | 0 <= i < j < |m.log| && m.log[i].body.FrameBuilt? && m.log[j].body.FrameBuilt? ::
          m.log[i].body.frameId.version < m.log[j].body.frameId.version)
  }

  lemma RecordKeepsVersioned(m: Machine, step: int, body: Payload, pc: Pc)
    requires Versioned(m)
    requires body.FrameBuilt? ==> body.frameId.version == m.st.stateVersion
    ensures Versioned(Record(m, step, body, pc))
  {
  }

  lemma BuildingMoves(c: Setup, st: RuntimeState, pc: Pc, inp: StepInput)
    ensures var move := Next(c, st, pc, inp);
            move.Say? && move.body.FrameBuilt? ==> move.body.frameId.version == st.stateVersion
  {
    hide Refused, Combine, AssessEffect, AssessAttempts, AssessFrame, Mint, OverBudget, ActionRecord, Keys,
         ControlRecord, Attempted, Accounts, KernelMachine.Effect;
  }

  lemma MoveKeepsVersioned(c: Setup, m: Machine, inp: StepInput)
    requires Versioned(m)
    ensures Versioned(Make(m, Next(c, m.st, m.pc, inp)))
  {
    hide Next, Apply;
    var move := Next(c, m.st, m.pc, inp);
    BuildingMoves(c, m.st, m.pc, inp);
    if move.Say? { RecordKeepsVersioned(m, move.step, move.body, move.pc); }
  }

  // ---- what a guard leads to ---------------------------------------------------------------

  predicate Raises(e: Event, kind: GuardKind) { e.body.GuardRaised? && e.body.outcome.kind == kind }

  predicate FailsFor(e: Event, reason: StopReason) { e.body == RunFinished(Failed, Some(reason)) }

  /** A CYCLE guard suspends and nothing else; only a REPEAT guard can end a run as a cycle. */
  ghost predicate Named(m: Machine) {
    && m.log != []
    && (forall i | 0 <= i < |m.log| - 1 && Raises(m.log[i], Cycle) ::
          m.log[i + 1].body == RunSuspended(AwaitingEvidence))
    && (Raises(m.log[|m.log| - 1], Cycle) ==> m.pc.FrameGuarded? || m.pc == Suspending(AwaitingEvidence))
    && (forall i | 0 <= i < |m.log| && FailsFor(m.log[i], CycleDetected) :: i > 0 && Raises(m.log[i - 1], Repeat))
    && (m.pc == Failing(CycleDetected) || m.pc == Escalating(Repeat) ==> Raises(m.log[|m.log| - 1], Repeat))
    && (m.pc.Escalating? ==> m.pc.kind.Repeat? || m.pc.kind.NoProgress?)
    && (m.pc.Recording? ==> m.pc.combined.kind.NoGuard? || m.pc.combined.kind.NoProgress?)
  }

  lemma NamingMoves(c: Setup, st: RuntimeState, pc: Pc, inp: StepInput)
    requires Bound(st, pc)
    requires pc.Escalating? ==> pc.kind.Repeat? || pc.kind.NoProgress?
    requires pc.Recording? ==> pc.combined.kind.NoGuard? || pc.combined.kind.NoProgress?
    ensures var move := Next(c, st, pc, inp);
            && (move.Say? && move.body.GuardRaised? && move.body.outcome.kind.Cycle? ==> move.pc.FrameGuarded?)
            && (pc.FrameGuarded? ==> move == Go(Suspending(AwaitingEvidence)))
            && (pc.Suspending? ==> move.Say? && move.body == RunSuspended(pc.reason) && move.pc.Idle?)
            && (move.Say? && move.body == RunFinished(Failed, Some(CycleDetected)) ==> pc == Failing(CycleDetected))
            && (!move.Stop? && move.pc == Failing(CycleDetected) ==> move.Go? && pc == Escalating(Repeat))
            && (!move.Stop? && move.pc == Escalating(Repeat) ==>
                  move.Say? && move.body.GuardRaised? && move.body.outcome.kind.Repeat?)
            && (!move.Stop? && move.pc.Escalating? ==> move.pc.kind.Repeat? || move.pc.kind.NoProgress?)
            && (!move.Stop? && move.pc.Recording? ==>
                  move.pc.combined.kind.NoGuard? || move.pc.combined.kind.NoProgress?)
  {
    hide Refused, BuildFrame, Mint, Combine, Attempted, OverBudget, ActionRecord, Keys, ControlRecord;
  }

  lemma RecordKeepsNamed(m: Machine, step: int, body: Payload, pc: Pc)
    requires Named(m)
    requires Raises(m.log[|m.log| - 1], Cycle) ==> body == RunSuspended(AwaitingEvidence)
    requires body.GuardRaised? && body.outcome.kind.Cycle? ==> pc.FrameGuarded?
    requires body == RunFinished(Failed, Some(CycleDetected)) ==> Raises(m.log[|m.log| - 1], Repeat)
    requires pc != Failing(CycleDetected)
    requires pc == Escalating(Repeat) ==> body.GuardRaised? && body.outcome.kind.Repeat?
    requires pc.Escalating? ==> pc.kind.Repeat? || pc.kind.NoProgress?
    requires pc.Recording? ==> pc.combined.kind.NoGuard? || pc.combined.kind.NoProgress?
    ensures Named(Record(m, step, body, pc))
  {
    hide Apply;
  }

  lemma MoveKeepsNamed(c: Setup, m: Machine, inp: StepInput)
    requires Bound(m.st, m.pc) && Named(m)
    ensures Named(Make(m, Next(c, m.st, m.pc, inp)))
  {
    hide Next, Bound, Apply;
    var move := Next(c, m.st, m.pc, inp);
    NamingMoves(c, m.st, m.pc, inp);
    if move.Say? { RecordKeepsNamed(m, move.step, move.body, move.pc); }
  }

  // ---- what stands before an intent -------------------------------------------------------

  ghost predicate ObservedAt(log: seq<Event>, back: nat, o: Observation) {
    |log| >= back && back > 0 && log[|log| - back].body.Observed? && log[|log| - back].body.observation == o
  }

  /** An id names the key that stands at its position in the offer. */
  ghost predicate Names(keys: seq<string>, id: string, key: string) {
    exists p: nat {:trigger keys[p]} :: p < |keys| && keys[p] == key && id == CandidateId(1 + p)
  }

  ghost predicate OfferedAt(log: seq<Event>, back: nat, x: Candidate) {
    |log| >= back && back > 0 && log[|log| - back].body.Offered? && Names(log[|log| - back].body.keys, x.id, x.key)
  }

  ghost predicate FramedAt(log: seq<Event>, back: nat, f: Frame) {
    && |log| >= back && back > 0
    && log[|log| - back].body.FrameBuilt?
    && log[|log| - back].body.frameId == f.frameId
    && forall x | x in f.candidates :: OfferedAt(log, back + 1, x)
  }

  /** The tail of the log at each position before the intent, newest event last. */
  ghost predicate Shaped(m: Machine, inp: StepInput) {
    match m.pc
    case Offering(o) => ObservedAt(m.log, 1, o)
    case Building(o) => ObservedAt(m.log, 2, o) && m.log[|m.log| - 1].body == Offered(Keys(inp.candidates))
    case Assessing(o, f) => ObservedAt(m.log, 3, o) && FramedAt(m.log, 1, f)
    case Deciding(v) => ObservedAt(m.log, 3, v.seen) && FramedAt(m.log, 1, v.frame)
    case Validating(v, d) =>
      && ObservedAt(m.log, 4, v.seen)
      && FramedAt(m.log, 2, v.frame)
      && m.log[|m.log| - 1].body == DecisionMade(d)
    case _ => true
  }

  /** Five consecutive events explain an intent: the world was observed, the key was offered, the
      frame was built, the policy decided for that very frame and named the position at which the key
      was offered, and only then it runs, on the observed revision, not excluded, with no operation
      open. */
  ghost predicate Justified(c: Setup, log: seq<Event>, i: nat)
    requires i < |log| && log[i].body.IntentRecorded?
  {
    var st := Replay(InitialState(c), log[..i]);
    && i >= 4
    && log[i - 4].body.Observed? && log[i - 4].body.observation.revision == st.Revision()
    && log[i - 3].body.Offered? && log[i].body.intentKey in log[i - 3].body.keys
    && log[i - 2].body.FrameBuilt?
    && log[i - 1].body.DecisionMade?
    && log[i - 1].body.decision.frameId == log[i - 2].body.frameId
    && log[i - 1].body.decision.candidateId.Some? && log[i - 1].body.decision.control.None?
    && Names(log[i - 3].body.keys, log[i - 1].body.decision.candidateId.value, log[i].body.intentKey)
    && log[i].body.intentKey !in st.deadActions
    && !Attempted(st, st.Revision(), log[i].body.intentKey)
    && st.unresolved == []
    && !st.observationStale
  }

  ghost predicate AllJustified(c: Setup, log: seq<Event>) {
    forall i | 0 <= i < |log| && log[i].body.IntentRecorded? :: Justified(c, log, i)
  }

  lemma OfferShapes(c: Setup, m: Machine, inp: StepInput)
    requires m.pc.Offering? || m.pc.Building?
    requires Shaped(m, inp)
    ensures Shaped(Make(m, Next(c, m.st, m.pc, inp)), inp)
  {
    hide Apply, BuildFrame;
    var move := Next(c, m.st, m.pc, inp);
    if m.pc.Building? && move.Say? {
      forall x | x in move.pc.frame.candidates ensures OfferedAt(m.log, 1, x) {
        FrameOffers(c, m.st, inp.candidates, inp.frameChars, x);
        var i :| 0 <= i < |inp.candidates| && x == inp.candidates[i].(id := CandidateId(1 + i));
        assert Keys(inp.candidates)[i] == x.key;
      }
    }
  }

  lemma FrameShapes(c: Setup, m: Machine, inp: StepInput)
    requires m.pc.Assessing? || m.pc.FrameGuarded? || m.pc.Deciding?
    requires Bound(m.st, m.pc) && Shaped(m, inp)
    ensures Shaped(Make(m, Next(c, m.st, m.pc, inp)), inp)
  {
    hide Apply, Refused, Combine, BuildFrame;
  }

  predicate BeforeFrame(pc: Pc) { pc.Offering? || pc.Building? || pc.Assessing? || pc.FrameGuarded? || pc.Deciding? }

  /** From everywhere else the shape is trivial, or one observation. */
  lemma OtherShapes(c: Setup, m: Machine, inp: StepInput)
    requires !BeforeFrame(m.pc)
    ensures Shaped(Make(m, Next(c, m.st, m.pc, inp)), inp)
  {
    hide Apply, Refused, Combine, AssessEffect, AssessAttempts, AssessFrame, Attempted, Mint, BuildFrame, OverBudget,
         Accounts,
         ActionRecord, KernelMachine.Effect, FramedAt, OfferedAt;
  }

  lemma MoveKeepsShaped(c: Setup, m: Machine, inp: StepInput)
    requires Bound(m.st, m.pc) && Shaped(m, inp)
    ensures Shaped(Make(m, Next(c, m.st, m.pc, inp)), inp)
  {
    hide Next, Make, Shaped, Bound;
    if m.pc.Offering? || m.pc.Building? {
      OfferShapes(c, m, inp);
    } else if BeforeFrame(m.pc) {
      FrameShapes(c, m, inp);
    } else {
      OtherShapes(c, m, inp);
    }
  }

  lemma MoveKeepsJustified(c: Setup, m: Machine, inp: StepInput)
    requires m.st == Replay(InitialState(c), m.log)
    requires Bound(m.st, m.pc) && Shaped(m, inp) && AllJustified(c, m.log)
    requires m.pc.Validating? ==> m.st.unresolved == []
    ensures AllJustified(c, Make(m, Next(c, m.st, m.pc, inp)).log)
  {
    hide Next, Apply, Attempted, Mint, Replay, CandidateId;
    var move := Next(c, m.st, m.pc, inp);
    ActingMoves(c, m.st, m.pc, inp);
    if move.Say? {
      var n := Make(m, move);
      assert n.log[..|m.log|] == m.log;
      forall i | 0 <= i < |n.log| && n.log[i].body.IntentRecorded? ensures Justified(c, n.log, i) {
        if i < |m.log| {
          assert n.log[..i] == m.log[..i];
          assert Justified(c, m.log, i);
        } else {
          var x := move.pc.cand;
          assert m.pc.view.frame.Find(m.pc.decision.candidateId.value).value == x;
          assert x in m.pc.view.frame.candidates && OfferedAt(m.log, 3, x);
          assert n.log[i - 3] == m.log[|m.log| - 3];
        }
      }
    }
  }
}
