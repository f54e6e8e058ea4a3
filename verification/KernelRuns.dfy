/** All kernel invariants together, kept by every move, every step and every host call. */
module KernelRuns {
  import opened JsonModel
  import opened KernelTypes
  import opened KernelReduce
  import opened KernelGuards
  import opened KernelMachine
  import opened KernelInvariants
  import opened KernelWorld
  import opened KernelLedger
  import opened KernelTrace
  import opened Logs

  ghost predicate Inv(c: Setup, m: Machine) {
    && Derived(c, m) && Numbered(m) && Finality(m) && Evidence(m)
    && Bound(m.st, m.pc) && Excluded(m.st) && Unrepeated(c, m)
    && Settled(m) && Rationed(c, m) && GuardsBounded(c, m) && VerdictsBounded(c, m)
    && Minting(m) && Paired(m) && Versioned(m) && AllJustified(c, m.log)
    && Asked(m.log) && Named(m)
  }

  lemma MoveKeepsInv(c: Setup, m: Machine, inp: StepInput)
    requires Inv(c, m) && Shaped(m, inp)
    ensures var n := Make(m, Next(c, m.st, m.pc, inp)); Inv(c, n) && Shaped(n, inp)
  {
    hide Next, Make, Bound, Excluded, Unrepeated, Rationed, GuardsBounded, VerdictsBounded, Minting, Paired,
         Versioned, AllJustified, Shaped, Numbered, Evidence, Asked, Named;
    MoveKeepsDerived(c, m, Next(c, m.st, m.pc, inp));
    MoveKeepsNumbered(c, m, inp);
    MoveKeepsFinality(c, m, inp);
    MoveKeepsEvidence(c, m, inp);
    MoveKeepsBound(c, m, inp);
    MoveKeepsExcluded(c, m, inp);
    MoveKeepsUnrepeated(c, m, inp);
    MoveKeepsSettled(c, m, inp);
    MoveKeepsRationed(c, m, inp);
    MoveKeepsGuardsBounded(c, m, inp);
    MoveKeepsVerdictsBounded(c, m, inp);
    MoveKeepsMinting(c, m, inp);
    MoveKeepsPaired(c, m, inp);
    MoveKeepsVersioned(c, m, inp);
    MoveKeepsAsked(c, m, inp);
    MoveKeepsNamed(c, m, inp);
    MoveKeepsShaped(c, m, inp);
    MoveKeepsJustified(c, m, inp);
  }

  /** A move between two operations of the host: RESUMED, TASK_UPDATED or a cancellation. */
  predicate HostSays(b: Payload) {
    b.Resumed? || b.TaskUpdated? || b == RunFinished(Cancelled, Some(CancelledByHost))
  }

  lemma HostRecordKeepsLog(c: Setup, m: Machine, step: int, body: Payload)
    requires Inv(c, m) && m.pc.Idle? && !m.st.status.Terminal() && HostSays(body)
    ensures var n := Record(m, step, body, Idle);
            && Derived(c, n) && Numbered(n) && Finality(n) && Evidence(n) && Versioned(n)
            && Asked(n.log) && Named(n)
  {
    hide Apply, Derived, Numbered, Versioned, Asked, Bound, Excluded, Unrepeated, Settled, Rationed, GuardsBounded,
         VerdictsBounded, Minting, Paired, AllJustified;
    HostSaysNothingFinal(m);
    RecordKeepsDerived(c, m, step, body, Idle);
    RecordKeepsNumbered(m, step, body, Idle);
    RecordKeepsFinality(m, step, body, Idle);
    RecordKeepsEvidence(m, step, body, Idle);
    RecordKeepsVersioned(m, step, body, Idle);
    RecordKeepsAsked(m.log, Event(|m.log| + 1, step, body));
    RecordKeepsNamed(m, step, body, Idle);
  }

  lemma HostSaysNothingFinal(m: Machine)
    requires Finality(m) && Evidence(m) && Named(m) && m.pc.Idle? && !m.st.status.Terminal()
    ensures m.log != [] && !Raises(m.log[|m.log| - 1], Cycle)
  {
  }

  lemma HostRecordKeepsWorld(c: Setup, m: Machine, step: int, body: Payload)
    requires Derived(c, m) && Bound(m.st, m.pc) && Excluded(m.st) && Unrepeated(c, m) && m.pc.Idle? && HostSays(body)
    ensures var n := Record(m, step, body, Idle); Bound(n.st, n.pc) && Excluded(n.st) && Unrepeated(c, n)
  {
    hide Attempted, Apply;
    var e := Event(|m.log| + 1, step, body);
    WorldEffect(m.st, e);
    ApplyKeepsExcluded(m.st, e);
    ExecutionsAppend(c, m, step, body, Idle);
  }

  lemma HostRecordKeepsTrace(c: Setup, m: Machine, step: int, body: Payload)
    requires Minting(m) && Paired(m) && AllJustified(c, m.log) && m.pc.Idle? && HostSays(body)
    ensures var n := Record(m, step, body, Idle); Minting(n) && Paired(n) && AllJustified(c, n.log)
  {
    hide Minting, Paired, AllJustified, Record;
    RecordKeepsPaired(m, step, body, Idle) by { assert body.Resumed? || body.TaskUpdated? || body.RunFinished?; }
    HostRecordKeepsMinting(m, step, body);
    HostRecordKeepsJustified(c, m, step, body);
  }

  lemma HostRecordKeepsMinting(m: Machine, step: int, body: Payload)
    requires Minting(m) && m.pc.Idle? && HostSays(body)
    ensures Minting(Record(m, step, body, Idle))
  {
    var n := Record(m, step, body, Idle);
    assert n.log[..|n.log| - 1] == m.log;
    assert n.st.step >= m.st.step;
  }

  lemma HostRecordKeepsJustified(c: Setup, m: Machine, step: int, body: Payload)
    requires AllJustified(c, m.log) && HostSays(body)
    ensures AllJustified(c, Record(m, step, body, Idle).log)
  {
    hide Justified, Apply;
    var n := Record(m, step, body, Idle);
    assert n.log[..|m.log|] == m.log;
    forall i | 0 <= i < |n.log| && n.log[i].body.IntentRecorded? ensures Justified(c, n.log, i) {
      assert i < |m.log| && n.log[i] == m.log[i];
      JustifiedExtends(c, m.log, n.log, i);
    }
  }

  lemma JustifiedExtends(c: Setup, log: seq<Event>, longer: seq<Event>, i: nat)
    requires i < |log| <= |longer| && longer[..|log|] == log
    requires log[i].body.IntentRecorded? && Justified(c, log, i)
    ensures Justified(c, longer, i)
  {
    assert longer[..i] == log[..i];
    assert forall k | 0 <= k <= i :: longer[k] == log[k];
  }

  lemma HostRecordKeepsSettled(m: Machine, step: int, body: Payload)
    requires Settled(m) && m.pc.Idle? && HostSays(body)
    ensures Settled(Record(m, step, body, Idle))
  {
    hide Apply;
    var e := Event(|m.log| + 1, step, body);
    UnresolvedEffect(m.st, e);
    CountAppend(m.log, e, OPENS_OPERATION);
    CountAppend(m.log, e, CLOSES_OPERATION);
  }

  lemma HostRecordKeepsRationed(c: Setup, m: Machine, step: int, body: Payload)
    requires Rationed(c, m) && m.pc.Idle? && HostSays(body)
    ensures Rationed(c, Record(m, step, body, Idle))
  {
    hide Apply, PolicyCalls;
    var e := Event(|m.log| + 1, step, body);
    forall fp ensures PolicyCalls(m.log + [e], fp) == PolicyCalls(m.log, fp)
              ensures Apply(m.st, e).Visits(fp) == m.st.Visits(fp)
    {
      VisitEffect(m.st, e, fp);
      PolicyCallsAppend(m.log, e, fp);
    }
  }

  lemma HostRecordKeepsBounds(c: Setup, m: Machine, step: int, body: Payload)
    requires GuardsBounded(c, m) && VerdictsBounded(c, m)
    requires m.pc.Idle? && !m.st.status.Terminal() && HostSays(body)
    ensures var n := Record(m, step, body, Idle); GuardsBounded(c, n) && VerdictsBounded(c, n)
  {
    hide Apply;
    var e := Event(|m.log| + 1, step, body);
    FailureEffect(m.st, e);
    CountAppend(m.log, e, GUARDS_FAILURE);
    CountAppend(m.log, e, UNSATISFIES);
  }

  lemma HostRecordKeepsInv(c: Setup, m: Machine, step: int, body: Payload)
    requires Inv(c, m) && m.pc.Idle? && !m.st.status.Terminal() && HostSays(body)
    ensures Inv(c, Record(m, step, body, Idle))
  {
    hide Record, Bound, Excluded, Unrepeated, Rationed, GuardsBounded, VerdictsBounded, Minting, Paired,
         Versioned, AllJustified, Numbered, Evidence, Settled, Finality, Derived, Asked, Named;
    HostRecordKeepsLog(c, m, step, body);
    HostRecordKeepsWorld(c, m, step, body);
    HostRecordKeepsTrace(c, m, step, body);
    HostRecordKeepsSettled(m, step, body);
    HostRecordKeepsRationed(c, m, step, body);
    HostRecordKeepsBounds(c, m, step, body);
  }

  lemma DriveKeepsInv(c: Setup, m: Machine, inp: StepInput)
    requires Inv(c, m) && Shaped(m, inp)
    ensures Inv(c, Drive(c, m, inp)) && Drive(c, m, inp).pc.Idle?
    decreases m.pc.Begin?, Rank(m.pc)
  {
    hide Inv, Shaped;
    var move := Next(c, m.st, m.pc, inp);
    NextDescends(c, m.st, m.pc, inp);
    if !move.Stop? {
      MoveKeepsInv(c, m, inp);
      DriveKeepsInv(c, Make(m, move), inp);
    }
  }

  lemma BeginKeepsEvidence(m: Machine)
    requires Evidence(m) && m.pc.Idle?
    ensures Evidence(m.(pc := Begin))
  {
  }

  lemma BeginKeepsNamed(m: Machine)
    requires Named(m) && m.pc.Idle?
    ensures Named(m.(pc := Begin))
  {
  }

  lemma BeginKeepsInv(c: Setup, m: Machine)
    requires Inv(c, m) && m.pc.Idle?
    ensures Inv(c, m.(pc := Begin))
  {
    hide Attempted, AllJustified, Excluded, Next, Count, PolicyCalls, Executions, Intents, OpenIntent, Replay,
         LastFrame, Asked, Evidence, Named;
    BeginKeepsEvidence(m);
    BeginKeepsNamed(m);
  }

  lemma StartKeepsLog(c: Setup)
    ensures var n := Start(c);
            && Numbered(n) && Finality(n) && Evidence(n) && Versioned(n)
            && Bound(n.st, n.pc) && Excluded(n.st) && Named(n)
  {
    hide Attempted;
  }

  lemma StartIsDerived(c: Setup)
    ensures Derived(c, Start(c))
  {
    hide Apply;
    RecordKeepsDerived(c, Machine(InitialState(c), [], Idle), 0, RunStarted, Idle);
  }

  lemma StartKeepsTrace(c: Setup)
    ensures var n := Start(c); Minting(n) && Paired(n) && AllJustified(c, n.log) && Asked(n.log)
  {
    var n := Start(c);
    assert n.log[..|n.log| - 1] == [];
    assert n.log[..0] == [];
  }

  lemma StartCounts(c: Setup)
    ensures var n := Start(c); Settled(n) && GuardsBounded(c, n) && VerdictsBounded(c, n)
  {
    var e := Event(1, 0, RunStarted);
    assert Start(c).log == [] + [e];
    CountAppend([], e, OPENS_OPERATION);
    CountAppend([], e, CLOSES_OPERATION);
    CountAppend([], e, GUARDS_FAILURE);
    CountAppend([], e, UNSATISFIES);
  }

  lemma StartAsksNothing(c: Setup)
    ensures Rationed(c, Start(c))
  {
    hide Count;
    var e := Event(1, 0, RunStarted);
    assert Start(c).log == [] + [e] == [e];
    forall fp ensures PolicyCalls([e], fp) == 0 { PolicyCallsAppend([], e, fp); }
  }

  lemma StartRunsNothing(c: Setup)
    ensures Unrepeated(c, Start(c))
  {
    var n := Start(c);
    assert n.log[..|n.log| - 1] == [];
    assert Executions(c, n.log) == Executions(c, []) + [];
    assert Executions(c, []) == [];
  }

  lemma StartKeepsInv(c: Setup)
    ensures Inv(c, Start(c))
  {
    hide Derived, Numbered, Finality, Evidence, Versioned, Bound, Excluded, Minting, Paired, AllJustified, Asked, Named,
         Unrepeated, Settled, Rationed, GuardsBounded, VerdictsBounded, Start;
    StartKeepsLog(c);
    StartIsDerived(c);
    StartKeepsTrace(c);
    StartCounts(c);
    StartAsksNothing(c);
    StartRunsNothing(c);
    StartIsAtRest(c);
  }

  lemma StartIsAtRest(c: Setup)
    ensures Start(c).pc.Idle?
  {
  }

  lemma PerformKeepsInv(c: Setup, m: Machine, call: Call)
    requires Inv(c, m) && m.pc.Idle?
    ensures Inv(c, Perform(c, m, call)) && Perform(c, m, call).pc.Idle?
  {
    hide Inv;
    match call
    case CallStep(inp) =>
      BeginKeepsInv(c, m);
      DriveKeepsInv(c, m.(pc := Begin), inp);
    case CallResume(input, update) =>
      if !m.st.status.Terminal() {
        var woken := Record(m, m.st.step, Resumed(input), Idle);
        HostRecordKeepsInv(c, m, m.st.step, Resumed(input));
        if update.Some? { HostRecordKeepsInv(c, woken, UpdateStep(woken.st, update.value), TaskUpdated(update.value)); }
      }
    case CallCancel =>
      if !m.st.status.Terminal() { HostRecordKeepsInv(c, m, m.st.step, RunFinished(Cancelled, Some(CancelledByHost))); }
  }

  lemma InvParts(c: Setup, m: Machine)
    requires Inv(c, m)
    ensures Derived(c, m) && Numbered(m) && Finality(m) && Evidence(m)
    ensures Bound(m.st, m.pc) && Excluded(m.st) && Unrepeated(c, m)
    ensures Settled(m) && Rationed(c, m) && GuardsBounded(c, m) && VerdictsBounded(c, m)
    ensures Minting(m) && Paired(m) && Versioned(m) && AllJustified(c, m.log) && Asked(m.log) && Named(m)
  {
    hide Derived, Numbered, Finality, Evidence, Versioned, Bound, Excluded, Minting, Paired, AllJustified, Asked, Named,
         Unrepeated, Settled, Rationed, GuardsBounded, VerdictsBounded;
  }

  /** Every state that any sequence of host calls can reach, with any environment, policy,
      verifier and clock, satisfies all kernel invariants. */
  lemma {:induction false} HistoryKeepsInv(c: Setup, calls: seq<Call>)
    ensures Inv(c, History(c, calls)) && History(c, calls).pc.Idle?
  {
    hide Inv;
    if calls == [] {
      StartKeepsInv(c);
    } else {
      HistoryKeepsInv(c, calls[..|calls| - 1]);
      PerformKeepsInv(c, History(c, calls[..|calls| - 1]), calls[|calls| - 1]);
    }
  }
}
