/** What holds of every run of the kernel: any environment, policy, verifier, clock and host. */
module KernelTheorems {
  import opened JsonModel
  import opened KernelTypes
  import opened KernelReduce
  import opened KernelGuards
  import opened KernelMachine
  import opened KernelInvariants
  import opened KernelWorld
  import opened KernelLedger
  import opened KernelTrace
  import opened KernelRuns
  import opened Logs

  function AtLeastOne(limit: int): nat { if limit < 1 then 1 else limit }

  /** How many policy calls one frame fingerprint is worth. */
  function Ration(config: LoopConfig): nat { if config.maxFrameVisits < 1 then 0 else config.maxFrameVisits - 1 }

  /** The log is a well-formed trace and the only source of state. */
  lemma LogIsTheTrace(c: Setup, calls: seq<Call>)
    ensures var m := History(c, calls);
            && m.st == Replay(InitialState(c), m.log)
            && (forall i | 0 <= i < |m.log| :: m.log[i].seqNo == i + 1)
            && (forall i | 0 <= i < |m.log| && m.log[i].body.RunFinished? :: i == |m.log| - 1)
            && (m.st.status.Terminal() <==> exists i :: 0 <= i < |m.log| && m.log[i].body.RunFinished?)
  {
    hide Inv, History, Replay, PolicyCalls, Count, Intents, OpenIntent, Executions, Justified, Evidence, Versioned,
         Bound, Excluded, Minting, Paired, AllJustified, Asked, Named, Unrepeated, Settled, Rationed, GuardsBounded,
         VerdictsBounded;
    HistoryKeepsInv(c, calls);
    InvParts(c, History(c, calls));
    var m := History(c, calls);
    assert m.st.status.Terminal() ==> m.log[|m.log| - 1].body.RunFinished?;
  }

  predicate Ordered(log: seq<Event>) { forall i, j | 0 <= i < j < |log| :: log[i].step <= log[j].step }

  /** No resume of a live run passes an update whose own `step` is lower than the run's. */
  ghost predicate KeepsTime(c: Setup, calls: seq<Call>) {
    forall i | 0 <= i < |calls| && calls[i].CallResume? && calls[i].update.Some? ::
      var st := History(c, calls[..i]).st;
      !st.status.Terminal() ==> UpdateStep(st, calls[i].update.value) >= st.step
  }

  lemma RecordOrdered(m: Machine, step: int, body: Payload, pc: Pc)
    requires Numbered(m)
    ensures step >= m.st.step ==> (Ordered(Record(m, step, body, pc).log) <==> Ordered(m.log))
    ensures step < m.st.step && m.log != [] && m.log[|m.log| - 1].step == m.st.step
            ==> !Ordered(Record(m, step, body, pc).log)
  {
    hide Apply;
    var n := Record(m, step, body, pc);
    assert forall i | 0 <= i < |m.log| :: n.log[i] == m.log[i];
    assert n.log[|m.log|].step == step;
  }

  lemma {:induction false} DriveOrdered(c: Setup, m: Machine, inp: StepInput)
    requires Numbered(m)
    ensures Ordered(Drive(c, m, inp).log) <==> Ordered(m.log)
    decreases m.pc.Begin?, Rank(m.pc)
  {
    hide Next, Apply, Ordered;
    var move := Next(c, m.st, m.pc, inp);
    NextDescends(c, m.st, m.pc, inp);
    FreshMoves(c, m.st, m.pc, inp);
    if !move.Stop? {
      MoveKeepsNumbered(c, m, inp);
      if move.Say? { RecordOrdered(m, move.step, move.body, move.pc); }
      DriveOrdered(c, Make(m, move), inp);
    }
  }

  lemma ResumeOrdered(c: Setup, m: Machine, input: Option<Json>, update: Option<TaskUpdate>)
    requires Numbered(m) && !m.st.status.Terminal()
    ensures Ordered(ResumeRun(m, input, update).log)
       <==> Ordered(m.log) && (update.Some? ==> UpdateStep(m.st, update.value) >= m.st.step)
  {
    hide Ordered;
    RecordOrdered(m, m.st.step, Resumed(input), Idle);
    RecordKeepsNumbered(m, m.st.step, Resumed(input), Idle);
    var woken := Record(m, m.st.step, Resumed(input), Idle);
    if update.Some? {
      var step := UpdateStep(m.st, update.value);
      RecordOrdered(woken, step, TaskUpdated(update.value), Idle);
      var longer := Record(woken, step, TaskUpdated(update.value), Idle).log;
      if Ordered(longer) { PrefixOrdered(woken.log, longer); }
    }
  }

  lemma PrefixOrdered(short: seq<Event>, long: seq<Event>)
    requires short <= long && Ordered(long)
    ensures Ordered(short)
  {
    assert forall i | 0 <= i < |short| :: short[i] == long[i];
  }

  /** The steps of the events never decrease, exactly when no update turns the step back: an update is
      merged into its event, and nothing checks a `step` in it. */
  lemma {:induction false} StepsNeverDecrease(c: Setup, calls: seq<Call>)
    ensures Ordered(History(c, calls).log) <==> KeepsTime(c, calls)
  {
    hide Inv, Ordered, Drive, ResumeRun;
    if calls == [] {
      assert Ordered(Start(c).log) by { OneEventIsOrdered(Start(c).log); }
    } else {
      var before, call := calls[..|calls| - 1], calls[|calls| - 1];
      var m := History(c, before);
      StepsNeverDecrease(c, before);
      HistoryKeepsInv(c, before);
      InvNumbers(c, m);
      assert forall i | 0 <= i < |before| :: before[i] == calls[i] && before[..i] == calls[..i];
      match call
      case CallStep(inp) => DriveOrdered(c, m.(pc := Begin), inp);
      case CallResume(input, update) =>
        if m.st.status.Terminal() { TerminalResume(m, input, update); } else { ResumeOrdered(c, m, input, update); }
      case CallCancel => RecordOrdered(m, m.st.step, RunFinished(Cancelled, Some(CancelledByHost)), Idle);
    }
  }

  /** One resume is enough to turn it back. */
  lemma UpdatesCanTurnTheStepBack(c: Setup)
    ensures var update := TaskUpdate(None, map[], [], [], [], Some(-1));
            !Ordered(History(c, [CallResume(None, Some(update))]).log)
  {
    hide Inv;
    var update := TaskUpdate(None, map[], [], [], [], Some(-1));
    var calls := [CallResume(None, Some(update))];
    assert calls[..0] == [];
    StepsNeverDecrease(c, calls);
    assert History(c, calls[..0]) == Start(c);
    assert calls[0].CallResume?;
  }

  lemma OneEventIsOrdered(log: seq<Event>)
    requires |log| <= 1
    ensures Ordered(log)
  {
  }

  lemma InvNumbers(c: Setup, m: Machine)
    requires Inv(c, m)
    ensures Numbered(m)
  {
  }

  lemma TerminalResume(m: Machine, input: Option<Json>, update: Option<TaskUpdate>)
    requires m.st.status.Terminal()
    ensures ResumeRun(m, input, update) == m
  {
  }

  /** Success is declared exactly when the event just before it is a satisfied verification. */
  lemma SuccessNeedsEvidence(c: Setup, calls: seq<Call>)
    ensures var log := History(c, calls).log;
            && (forall i | 0 <= i < |log| && Succeeds(log[i]) :: i > 0 && Satisfies(log[i - 1]))
            && (forall i | 0 <= i < |log| && Satisfies(log[i]) :: i + 1 < |log| && Succeeds(log[i + 1]))
            && (History(c, calls).st.status.Succeeded? <==> exists i :: 0 <= i < |log| && Satisfies(log[i]))
  {
    hide Inv, History, Replay, PolicyCalls, Count, Intents, OpenIntent, Executions, Justified, Derived, Numbered,
         Versioned, Bound, Excluded, Minting, Paired, AllJustified, Asked, Named, Unrepeated, Settled,
         Rationed, GuardsBounded, VerdictsBounded;
    HistoryKeepsInv(c, calls);
    InvParts(c, History(c, calls));
    var m := History(c, calls);
    if m.st.status.Succeeded? { assert Satisfies(m.log[|m.log| - 2]); }
    if i :| 0 <= i < |m.log| && Satisfies(m.log[i]) { assert Succeeds(m.log[i + 1]); }
  }

  /** Intents carry pairwise distinct ids, each is closed by its own receipt before the next one
      opens, and each is justified by the four events before it: in particular the key that runs is the
      key that was offered at the position the decision names. */
  lemma IntentsAreSound(c: Setup, calls: seq<Call>)
    ensures var m := History(c, calls);
            && (forall i, j | 0 <= i < j < |Intents(m.log)| :: Intents(m.log)[i] != Intents(m.log)[j])
            && (forall i | 0 <= i < |m.log| && m.log[i].body.IntentRecorded? :: OpenIntent(m.log[..i]) == None)
            && (forall i | 0 <= i < |m.log| && m.log[i].body.ReceiptRecorded? ::
                  OpenIntent(m.log[..i]) == Some(m.log[i].body.key))
            && OpenIntent(m.log) == None
            && AllJustified(c, m.log)
  {
    hide Inv, History, Replay, PolicyCalls, Count, Intents, OpenIntent, Executions, Justified, Derived, Numbered,
         Finality, Evidence, Versioned, Bound, Excluded, AllJustified, Asked, Named, Unrepeated, Settled, Rationed,
         GuardsBounded, VerdictsBounded;
    HistoryKeepsInv(c, calls);
    InvParts(c, History(c, calls));
  }

  /** The key that runs is the key the policy chose: the one that was offered, in the same step, at the
      position which the id in the decision stands for. */
  lemma ChosenKeyRuns(c: Setup, calls: seq<Call>, i: nat, key: string)
    requires i < |History(c, calls).log| && History(c, calls).log[i].body.IntentRecorded?
    ensures var log := History(c, calls).log;
            && i >= 3 && log[i - 3].body.Offered? && log[i - 1].body.DecisionMade?
               && log[i - 1].body.decision.candidateId.Some?
            && (Names(log[i - 3].body.keys, log[i - 1].body.decision.candidateId.value, key)
                <==> key == log[i].body.intentKey)
  {
    hide Inv, History, Names;
    HistoryKeepsInv(c, calls);
    var log := History(c, calls).log;
    IntentNamesItsKey(c, History(c, calls), i);
    var keys, id := log[i - 3].body.keys, log[i - 1].body.decision.candidateId.value;
    if Names(keys, id, key) { NamesOneKey(keys, id, key, log[i].body.intentKey); }
  }

  lemma NamesOneKey(keys: seq<string>, id: string, a: string, b: string)
    requires Names(keys, id, a) && Names(keys, id, b)
    ensures a == b
  {
    hide CandidateId;
    var p: nat :| p < |keys| && keys[p] == a && id == CandidateId(1 + p);
    var q: nat :| q < |keys| && keys[q] == b && id == CandidateId(1 + q);
    IdsInjective(1 + p, 1 + q);
  }

  lemma IntentNamesItsKey(c: Setup, m: Machine, i: nat)
    requires Inv(c, m) && i < |m.log| && m.log[i].body.IntentRecorded?
    ensures i >= 3 && m.log[i - 1].body.DecisionMade? && m.log[i - 3].body.Offered?
    ensures m.log[i - 1].body.decision.candidateId.Some?
    ensures Names(m.log[i - 3].body.keys, m.log[i - 1].body.decision.candidateId.value, m.log[i].body.intentKey)
  {
    hide Derived, Numbered, Finality, Evidence, Versioned, Bound, Excluded, Minting, Paired, Asked, Named,
         Unrepeated, Settled, Rationed, GuardsBounded, VerdictsBounded, Replay, Names;
    assert Justified(c, m.log, i);
  }

  /** A decision made for an earlier frame of the run never reaches execution. */
  lemma StaleDecisionsNeverRun(c: Setup, calls: seq<Call>, i: nat, j: nat)
    requires var log := History(c, calls).log;
             && j < i < |log| && log[i].body.IntentRecorded?
             && log[j].body.FrameBuilt? && log[i - 1].body.DecisionMade?
             && log[i - 1].body.decision.frameId == log[j].body.frameId
    ensures j == i - 2
  {
    hide Inv, Versioned, History;
    HistoryKeepsInv(c, calls);
    var m := History(c, calls);
    IntentFollowsItsFrame(c, m, i);
    if j < i - 2 { FrameIdsDiffer(m, j, i - 2); }
  }

  lemma IntentFollowsItsFrame(c: Setup, m: Machine, i: nat)
    requires Inv(c, m) && i < |m.log| && m.log[i].body.IntentRecorded?
    ensures Versioned(m) && i >= 2 && m.log[i - 1].body.DecisionMade? && m.log[i - 2].body.FrameBuilt?
    ensures m.log[i - 1].body.decision.frameId == m.log[i - 2].body.frameId
  {
    hide Derived, Numbered, Evidence, Versioned, Bound, Excluded, Minting, Paired, Asked, Named,
         Unrepeated, Settled, Rationed, GuardsBounded, VerdictsBounded, Replay;
    assert Justified(c, m.log, i);
  }

  lemma FrameIdsDiffer(m: Machine, i: nat, j: nat)
    requires Versioned(m) && i < j < |m.log| && m.log[i].body.FrameBuilt? && m.log[j].body.FrameBuilt?
    ensures m.log[i].body.frameId != m.log[j].body.frameId
  {
  }

  /** No action key runs twice on one observation revision. */
  lemma NoExecutionRepeats(c: Setup, calls: seq<Call>)
    ensures var ran := Executions(c, History(c, calls).log);
            Distinct(ran)
  {
    hide Inv, History, Replay, PolicyCalls, Count, Intents, OpenIntent, Executions, Justified, Derived, Numbered,
         Finality, Evidence, Versioned, Bound, Excluded, Minting, Paired, AllJustified, Asked, Named, Settled,
         Rationed, GuardsBounded, VerdictsBounded;
    HistoryKeepsInv(c, calls);
    InvParts(c, History(c, calls));
  }

  ghost predicate Distinct<T>(s: seq<T>) { forall i, j | 0 <= i < j < |s| :: s[i] != s[j] }

  ghost function Pairs(rs: set<string>, ks: set<string>): set<(string, string)> {
    set r, k | r in rs && k in ks :: (r, k)
  }

  lemma {:induction false} PairsSize(rs: set<string>, ks: set<string>)
    ensures |Pairs(rs, ks)| == |rs| * |ks|
  {
    if rs == {} {
      assert Pairs(rs, ks) == {};
    } else {
      var r :| r in rs;
      PairsSize(rs - {r}, ks);
      RowSize(r, ks);
      PairsSplit(rs, ks, r);
      RowsMultiply(|rs| - 1, |ks|);
    }
  }

  lemma PairsSplit(rs: set<string>, ks: set<string>, r: string)
    requires r in rs
    ensures |Pairs(rs, ks)| == |Pairs(rs - {r}, ks)| + |set k | k in ks :: (r, k)|
    ensures |rs - {r}| == |rs| - 1
  {
    var row := set k | k in ks :: (r, k);
    assert Pairs(rs, ks) == Pairs(rs - {r}, ks) + row;
    assert Pairs(rs - {r}, ks) !! row;
  }

  lemma RowsMultiply(n: nat, k: nat)
    ensures (n + 1) * k == n * k + k
  {
  }

  lemma {:induction false} RowSize(r: string, ks: set<string>)
    ensures |set k | k in ks :: (r, k)| == |ks|
  {
    if ks != {} {
      var k :| k in ks;
      RowSize(r, ks - {k});
      assert (set x | x in ks :: (r, x)) == (set x | x in ks - {k} :: (r, x)) + {(r, k)};
    } else {
      assert (set k | k in ks :: (r, k)) == {};
    }
  }

  lemma {:induction false} DistinctFit<T>(s: seq<T>, domain: set<T>)
    requires Distinct(s)
    requires forall x | x in s :: x in domain
    ensures |s| <= |domain|
  {
    if s != [] {
      var last := s[|s| - 1];
      DistinctFit(s[..|s| - 1], domain - {last});
    }
  }

  /** A finite world admits finitely many executions, whatever the policy does. */
  lemma ExecutionsAreBounded(c: Setup, calls: seq<Call>, revisions: set<string>, keys: set<string>)
    requires forall x | x in Executions(c, History(c, calls).log) :: x.0 in revisions && x.1 in keys
    ensures |Executions(c, History(c, calls).log)| <= |revisions| * |keys|
  {
    var ran := Executions(c, History(c, calls).log);
    NoExecutionRepeats(c, calls);
    DistinctFit(ran, Pairs(revisions, keys));
    PairsSize(revisions, keys);
  }

  /** Operations are only resolved with a definite status. */
  predicate Definite(log: seq<Event>) {
    forall i | 0 <= i < |log| && log[i].body.OperationResolved? :: !log[i].body.resolvedStatus.Unresolved()
  }

  lemma DefiniteMoves(c: Setup, st: RuntimeState, pc: Pc, inp: StepInput)
    ensures var move := Next(c, st, pc, inp);
            move.Say? && move.body.OperationResolved? ==> !move.body.resolvedStatus.Unresolved()
  {
    hide Refused, BuildFrame, Combine, AssessEffect, AssessFrame, AssessAttempts, Mint, OverBudget, ActionRecord, Keys;
  }

  lemma {:induction false} DriveIsDefinite(c: Setup, m: Machine, inp: StepInput)
    requires Definite(m.log)
    ensures Definite(Drive(c, m, inp).log)
    decreases m.pc.Begin?, Rank(m.pc)
  {
    hide Next, Apply;
    var move := Next(c, m.st, m.pc, inp);
    NextDescends(c, m.st, m.pc, inp);
    DefiniteMoves(c, m.st, m.pc, inp);
    if !move.Stop? { DriveIsDefinite(c, Make(m, move), inp); }
  }

  lemma {:induction false} HistoryIsDefinite(c: Setup, calls: seq<Call>)
    ensures Definite(History(c, calls).log)
  {
    hide Drive, Apply;
    if calls != [] {
      var m := History(c, calls[..|calls| - 1]);
      HistoryIsDefinite(c, calls[..|calls| - 1]);
      if calls[|calls| - 1].CallStep? { DriveIsDefinite(c, m.(pc := Begin), calls[|calls| - 1].inp); }
    }
  }

  /** Pending and unknown operations are queried, never resent: at most one is open, nothing runs
      while one is, and each leaves the set through exactly one definite query receipt. */
  lemma OpenOperationsAreNeverResent(c: Setup, calls: seq<Call>)
    ensures var m := History(c, calls);
            && |m.st.unresolved| <= 1
            && Count(m.log, OPENS_OPERATION) == Count(m.log, CLOSES_OPERATION) + |m.st.unresolved|
            && Definite(m.log)
            && (forall i | 0 <= i < |m.log| && m.log[i].body.IntentRecorded? ::
                  Replay(InitialState(c), m.log[..i]).unresolved == [])
  {
    hide Inv, History, Replay, PolicyCalls, Count, Intents, OpenIntent, Executions, Derived, Numbered, Finality,
         Evidence, Versioned, Bound, Excluded, Minting, Paired, Asked, Named, Unrepeated, Rationed, GuardsBounded,
         VerdictsBounded;
    HistoryIsDefinite(c, calls);
    HistoryKeepsInv(c, calls);
    InvParts(c, History(c, calls));
    var m := History(c, calls);
    forall i | 0 <= i < |m.log| && m.log[i].body.IntentRecorded?
      ensures Replay(InitialState(c), m.log[..i]).unresolved == []
    {
      assert Justified(c, m.log, i);
    }
  }

  /** Excluded keys were attempted on the current revision, and guard failures and unsatisfied
      verdicts are bounded over the whole run, resumes included. */
  lemma FailuresAreBounded(c: Setup, calls: seq<Call>)
    ensures var m := History(c, calls);
            && (forall k | k in m.st.deadActions :: Attempted(m.st, m.st.Revision(), k))
            && Count(m.log, GUARDS_FAILURE) <= AtLeastOne(c.config.maxGuardEscalations)
            && Count(m.log, UNSATISFIES) <= AtLeastOne(c.config.maxVerifications)
  {
    hide Inv, History, Replay, PolicyCalls, Count, Intents, OpenIntent, Executions, Justified, Derived, Numbered,
         Finality, Evidence, Versioned, Bound, Minting, Paired, AllJustified, Asked, Named, Unrepeated, Settled,
         Rationed;
    HistoryKeepsInv(c, calls);
    InvParts(c, History(c, calls));
  }

  /** A CYCLE guard always suspends at once, so only a REPEAT guard can end a run as a cycle. */
  lemma CyclesSuspend(c: Setup, calls: seq<Call>)
    ensures var log := History(c, calls).log;
            && (forall i | 0 <= i < |log| && Raises(log[i], Cycle) ::
                  i + 1 < |log| && log[i + 1].body == RunSuspended(AwaitingEvidence))
            && (forall i | 0 <= i < |log| && FailsFor(log[i], CycleDetected) :: i > 0 && Raises(log[i - 1], Repeat))
  {
    hide Inv, History, Replay, PolicyCalls, Count, Intents, OpenIntent, Executions, Justified, Derived, Numbered,
         Finality, Evidence, Versioned, Bound, Excluded, Minting, Paired, AllJustified, Asked, Unrepeated, Settled,
         Rationed, GuardsBounded, VerdictsBounded;
    HistoryKeepsInv(c, calls);
    InvParts(c, History(c, calls));
  }

  /** The policy sees one frame content at most `max_frame_visits - 1` times, resumes included. */
  lemma PolicyIsRationed(c: Setup, calls: seq<Call>, fingerprint: string)
    ensures PolicyCalls(History(c, calls).log, fingerprint) <= Ration(c.config)
  {
    hide Inv, History, Replay, PolicyCalls, Count, Intents, OpenIntent, Executions, Justified, Derived, Numbered,
         Finality, Evidence, Versioned, Bound, Excluded, Minting, Paired, AllJustified, Asked, Named, Unrepeated,
         Settled, GuardsBounded, VerdictsBounded;
    HistoryKeepsInv(c, calls);
    InvParts(c, History(c, calls));
  }

  // ---- termination without a step budget --------------------------------------------------

  ghost function SumCalls(log: seq<Event>, frames: seq<string>): nat {
    if frames == [] then 0 else PolicyCalls(log, frames[0]) + SumCalls(log, frames[1..])
  }

  ghost predicate Frames(log: seq<Event>, frames: seq<string>) {
    forall i | 0 <= i < |log| && log[i].body.FrameBuilt? :: log[i].body.fingerprint in frames
  }

  lemma {:induction false} SumGrows(log: seq<Event>, e: Event, frames: seq<string>)
    ensures SumCalls(log + [e], frames) >= SumCalls(log, frames)
    ensures CallsPolicy(e.body) && LastFrame(log).Some? && LastFrame(log).value in frames ==>
              SumCalls(log + [e], frames) >= SumCalls(log, frames) + 1
  {
    if frames != [] {
      PolicyCallsAppend(log, e, frames[0]);
      SumGrows(log, e, frames[1..]);
    }
  }

  lemma {:induction false} LastFrameIsBuilt(log: seq<Event>, frames: seq<string>)
    requires Frames(log, frames)
    ensures LastFrame(log).Some? ==> LastFrame(log).value in frames
  {
    if log != [] && !log[|log| - 1].body.FrameBuilt? { LastFrameIsBuilt(log[..|log| - 1], frames); }
  }

  lemma {:induction false} CallsAreFramed(log: seq<Event>, frames: seq<string>)
    requires Asked(log) && Frames(log, frames)
    ensures Count(log, POLICY_CALLED) <= SumCalls(log, frames)
  {
    if log != [] {
      var before, e := log[..|log| - 1], log[|log| - 1];
      assert log == before + [e];
      forall i | 0 <= i < |before| && CallsPolicy(before[i].body) ensures LastFrame(before[..i]).Some? {
        assert before[..i] == log[..i];
      }
      CallsAreFramed(before, frames);
      LastFrameIsBuilt(before, frames);
      SumGrows(before, e, frames);
    }
  }

  lemma {:induction false} SumIsRationed(c: Setup, log: seq<Event>, frames: seq<string>)
    requires forall fp :: PolicyCalls(log, fp) <= Ration(c.config)
    ensures SumCalls(log, frames) <= Ration(c.config) * |frames|
  {
    if frames != [] {
      SumIsRationed(c, log, frames[1..]);
      assert Ration(c.config) * |frames| == Ration(c.config) + Ration(c.config) * |frames[1..]|;
    }
  }

  /** Over a whole run, policy calls are bounded by the number of distinct frames. */
  lemma PolicyCallsAreBounded(c: Setup, calls: seq<Call>, frames: seq<string>)
    requires Frames(History(c, calls).log, frames)
    ensures Count(History(c, calls).log, POLICY_CALLED) <= Ration(c.config) * |frames|
  {
    HistoryKeepsInv(c, calls);
    var log := History(c, calls).log;
    forall fp ensures PolicyCalls(log, fp) <= Ration(c.config) { PolicyIsRationed(c, calls, fp); }
    CallsAreFramed(log, frames);
    SumIsRationed(c, log, frames);
  }

  /** The legs of one step: before the observation, up to the policy call, after it, and the two
      ways out. */
  datatype Leg = Starting | Framing | Asking | Stopping | Resting

  function LegOf(pc: Pc): Leg {
    match pc
    case Idle => Resting
    case Begin => Starting
    case Resolving(_, _) => Starting
    case Observing => Starting
    case Suspending(_) => Stopping
    case Failing(_) => Stopping
    case Offering(_) => Framing
    case Building(_) => Framing
    case Assessing(_, _) => Framing
    case FrameGuarded(_) => Framing
    case Deciding(_) => Framing
    case _ => Asking
  }

  /** Progress inside one step, relative to its start. */
  ghost predicate Advancing(m: Machine, calls: nat, step: nat) {
    match LegOf(m.pc)
    case Starting => Count(m.log, POLICY_CALLED) == calls && m.st.step == step
    case Framing => Count(m.log, POLICY_CALLED) == calls && m.st.step == step + 1
    case Asking => Count(m.log, POLICY_CALLED) == calls + 1 && m.st.step == step + 1
    case Stopping => true
    case Resting => m.st.status.Running? ==> Count(m.log, POLICY_CALLED) == calls + 1 && m.st.step == step + 1
  }

  /** Where one move leads from one leg. */
  predicate LegMove(c: Setup, st: RuntimeState, pc: Pc, inp: StepInput) {
    var move := Next(c, st, pc, inp);
    && !move.Stop?
    && (move.Say? ==> (CallsPolicy(move.body) <==> pc.Deciding?))
    && (move.Say? ==> move.step == if pc.Observing? then st.step + 1 else st.step)
    && (match LegOf(pc)
        case Starting =>
          (match LegOf(move.pc)
           case Starting => !pc.Observing?
           case Framing => pc.Observing? && move.Say?
           case Asking => false
           case Stopping => true
           case Resting => if move.Go? then st.status.Terminal() else Ends(move.body))
        case Framing => if pc.Deciding? then LegOf(move.pc).Stopping? || (LegOf(move.pc).Asking? && move.Say?)
                        else LegOf(move.pc).Framing? || LegOf(move.pc).Stopping?
        case Asking => !LegOf(move.pc).Starting? && !LegOf(move.pc).Framing?
        case Stopping => move.pc.Idle? && move.Say? && Ends(move.body)
        case Resting => true)
  }

  lemma LegMovesLate(c: Setup, st: RuntimeState, pc: Pc, inp: StepInput)
    requires !pc.Idle? && !pc.Begin? && Rank(pc) < 8
    ensures LegMove(c, st, pc, inp)
  {
    hide Rank, Refused, BuildFrame, Mint, Combine, Attempted, AssessEffect, AssessAttempts, AssessFrame, NextControl,
         NextCandidate, Accounts, ActionRecord, KernelMachine.Effect;
    LateRanks(pc);
  }

  lemma LateRanks(pc: Pc)
    ensures !pc.Begin? && Rank(pc) < 8 ==>
      !pc.Resolving? && !pc.Observing? && !pc.Offering? && !pc.Building? && !pc.Assessing? && !pc.FrameGuarded?
        && !pc.Deciding?
      && !pc.Validating?
  {
  }

  lemma LegMovesChosen(c: Setup, st: RuntimeState, pc: Pc, inp: StepInput)
    requires pc.Validating?
    ensures LegMove(c, st, pc, inp)
  {
    hide Refused, BuildFrame, Mint, Combine, Attempted, AssessEffect, AssessAttempts, AssessFrame;
  }

  lemma LegMovesEarly(c: Setup, st: RuntimeState, pc: Pc, inp: StepInput)
    requires pc.Begin? || Rank(pc) >= 9
    requires Bound(st, pc)
    ensures LegMove(c, st, pc, inp)
  {
    hide Refused, BuildFrame, Mint, Combine, Attempted, AssessEffect, AssessAttempts, AssessFrame;
  }

  lemma LegMoves(c: Setup, st: RuntimeState, pc: Pc, inp: StepInput)
    requires !pc.Idle? && Bound(st, pc)
    ensures LegMove(c, st, pc, inp)
  {
    hide LegMove, Bound;
    if pc.Validating? {
      LegMovesChosen(c, st, pc, inp);
    } else if pc.Begin? || Rank(pc) >= 9 {
      LegMovesEarly(c, st, pc, inp);
    } else {
      LegMovesLate(c, st, pc, inp);
    }
  }

  predicate Ends(b: Payload) { b.RunSuspended? || (b.RunFinished? && b.finalStatus.Failed?) }

  lemma StatusEffect(st: RuntimeState, e: Event)
    ensures var n := Apply(st, e);
            && n.step == Max(st.step, e.step)
            && (Ends(e.body) ==> !n.status.Running?)
  {
  }

  lemma MoveAdvances(c: Setup, m: Machine, inp: StepInput, calls: nat, step: nat)
    requires Bound(m.st, m.pc) && !m.pc.Idle? && Advancing(m, calls, step)
    ensures Advancing(Make(m, Next(c, m.st, m.pc, inp)), calls, step)
  {
    hide Next, Apply, Bound, LegOf, Ends, Count, CallsPolicy;
    var move := Next(c, m.st, m.pc, inp);
    LegMoves(c, m.st, m.pc, inp);
    LegShape(m.pc);
    LegShape(move.pc);
    if move.Say? {
      var e := Event(|m.log| + 1, move.step, move.body);
      StatusEffect(m.st, e);
      CountAppend(m.log, e, POLICY_CALLED);
      assert POLICY_CALLED(e) <==> m.pc.Deciding?;
    }
  }

  lemma LegShape(pc: Pc)
    ensures pc.Observing? ==> LegOf(pc).Starting?
    ensures pc.Deciding? ==> LegOf(pc).Framing?
    ensures LegOf(pc).Resting? <==> pc.Idle?
  {
  }

  lemma {:induction false} DriveAdvances(c: Setup, m: Machine, inp: StepInput, calls: nat, step: nat)
    requires Inv(c, m) && Shaped(m, inp) && Advancing(m, calls, step)
    ensures Advancing(Drive(c, m, inp), calls, step)
    decreases m.pc.Begin?, Rank(m.pc)
  {
    hide Inv, Shaped, Next, Apply, Advancing;
    var move := Next(c, m.st, m.pc, inp);
    if m.pc.Idle? {
      IdleStops(c, m, inp);
    } else {
      NextDescends(c, m.st, m.pc, inp);
      MoveKeepsInv(c, m, inp);
      InvBinds(c, m);
      LegMoves(c, m.st, m.pc, inp);
      MoveAdvances(c, m, inp, calls, step);
      DriveAdvances(c, Make(m, move), inp, calls, step);
    }
  }

  lemma InvBinds(c: Setup, m: Machine)
    requires Inv(c, m)
    ensures Bound(m.st, m.pc)
  {
  }

  lemma IdleStops(c: Setup, m: Machine, inp: StepInput)
    requires m.pc.Idle?
    ensures Drive(c, m, inp) == m
  {
  }

  /** A step that leaves the run RUNNING asked the policy exactly once and used one step number. */
  lemma StepAdvances(c: Setup, m: Machine, inp: StepInput)
    requires Inv(c, m) && m.pc.Idle?
    ensures var n := StepRun(c, m, inp);
            n.st.status.Running? ==>
              Count(n.log, POLICY_CALLED) == Count(m.log, POLICY_CALLED) + 1 && n.st.step == m.st.step + 1
  {
    hide Inv, Next;
    BeginKeepsInv(c, m);
    DriveAdvances(c, m.(pc := Begin), inp, Count(m.log, POLICY_CALLED), m.st.step);
    DriveKeepsInv(c, m.(pc := Begin), inp);
  }

  datatype Scheduled = Scheduled(m: Machine, steps: nat)

  /** `run()`: step while the status is RUNNING, one input for each step. */
  function Schedule(c: Setup, m: Machine, inputs: seq<StepInput>): Scheduled
    decreases |inputs|
  {
    if inputs == [] || !m.st.status.Running? then Scheduled(m, 0)
    else
      var rest := Schedule(c, StepRun(c, m, inputs[0]), inputs[1..]);
      rest.(steps := rest.steps + 1)
  }

  lemma {:induction false} ScheduleIsHistory(c: Setup, calls: seq<Call>,
                                             inputs: seq<StepInput>) returns (all: seq<Call>)
    ensures Schedule(c, History(c, calls), inputs).m == History(c, all)
    decreases |inputs|
  {
    var m := History(c, calls);
    if inputs == [] || !m.st.status.Running? {
      all := calls;
    } else {
      var next := calls + [CallStep(inputs[0])];
      assert next[..|next| - 1] == calls;
      all := ScheduleIsHistory(c, next, inputs[1..]);
    }
  }

  /** All steps but the last one asked the policy once and used one step number. */
  lemma {:induction false} StepsAreCalls(c: Setup, m: Machine, inputs: seq<StepInput>)
    requires Inv(c, m) && m.pc.Idle?
    ensures var r := Schedule(c, m, inputs);
            && (r.steps == 0 || Count(r.m.log, POLICY_CALLED) + 1 >= Count(m.log, POLICY_CALLED) + r.steps)
            && Count(r.m.log, POLICY_CALLED) >= Count(m.log, POLICY_CALLED)
    decreases |inputs|
  {
    hide Inv, Drive;
    if inputs != [] && m.st.status.Running? {
      var n := StepRun(c, m, inputs[0]);
      StepAdvances(c, m, inputs[0]);
      PerformKeepsInv(c, m, CallStep(inputs[0]));
      DriveGrows(c, m.(pc := Begin), inputs[0]);
      StepsAreCalls(c, n, inputs[1..]);
    }
  }

  lemma {:induction false} DriveGrows(c: Setup, m: Machine, inp: StepInput)
    ensures Count(Drive(c, m, inp).log, POLICY_CALLED) >= Count(m.log, POLICY_CALLED)
    decreases m.pc.Begin?, Rank(m.pc)
  {
    hide Next, Apply;
    var move := Next(c, m.st, m.pc, inp);
    NextDescends(c, m.st, m.pc, inp);
    if !move.Stop? {
      if move.Say? { CountAppend(m.log, Event(|m.log| + 1, move.step, move.body), POLICY_CALLED); }
      DriveGrows(c, Make(m, move), inp);
    }
  }

  /** Termination without a step budget: when the frames come from a finite list, one `run()`
      makes at most `(max_frame_visits - 1) * |frames| + 1` steps, at any point of a run. */
  lemma RunStopsByItself(c: Setup, calls: seq<Call>, inputs: seq<StepInput>, frames: seq<string>)
    requires Frames(Schedule(c, History(c, calls), inputs).m.log, frames)
    ensures var r := Schedule(c, History(c, calls), inputs);
            && r.steps <= Ration(c.config) * |frames| + 1
            && (|inputs| > Ration(c.config) * |frames| + 1 ==> !r.m.st.status.Running?)
  {
    hide Inv;
    var m := History(c, calls);
    HistoryKeepsInv(c, calls);
    StepsAreCalls(c, m, inputs);
    var all := ScheduleIsHistory(c, calls, inputs);
    PolicyCallsAreBounded(c, all, frames);
    ShortRunsStopped(c, m, inputs);
  }

  lemma {:induction false} ShortRunsStopped(c: Setup, m: Machine, inputs: seq<StepInput>)
    ensures var r := Schedule(c, m, inputs); r.steps == |inputs| || !r.m.st.status.Running?
    decreases |inputs|
  {
    hide Drive;
    if inputs != [] && m.st.status.Running? { ShortRunsStopped(c, StepRun(c, m, inputs[0]), inputs[1..]); }
  }

  lemma StepBudgetStops(c: Setup, m: Machine, inp: StepInput)
    requires c.config.maxSteps != 0 && m.st.step + 1 > c.config.maxSteps && !m.st.status.Terminal()
    ensures var n := StepRun(c, m, inp);
            |n.log| == |m.log| + 1 && FailsFor(n.log[|m.log|], MaxSteps) && n.st.status.Failed?
  {
    var b := m.(pc := Begin);
    var n := Record(b, m.st.step, RunFinished(Failed, Some(MaxSteps)), Idle);
    assert Next(c, b.st, b.pc, inp) == Say(m.st.step, RunFinished(Failed, Some(MaxSteps)), Idle);
    IdleStops(c, n, inp);
  }

  /** A failure for max_steps stands at a step that has no successor within the limit. */
  predicate Spent(c: Setup, e: Event) {
    FailsFor(e, MaxSteps) ==> c.config.maxSteps != 0 && e.step + 1 > c.config.maxSteps
  }

  ghost predicate AllSpent(c: Setup, m: Machine) {
    && (forall i | 0 <= i < |m.log| :: Spent(c, m.log[i]))
    && (m.pc.Failing? ==> m.pc.reason != MaxSteps)
  }

  lemma SpentMoves(c: Setup, st: RuntimeState, pc: Pc, inp: StepInput)
    requires pc.Failing? ==> pc.reason != MaxSteps
    ensures var move := Next(c, st, pc, inp);
            && (!move.Stop? && move.pc.Failing? ==> move.pc.reason != MaxSteps)
            && (move.Say? ==> Spent(c, Event(1, move.step, move.body)))
  {
    hide Refused, BuildFrame, Combine, AssessEffect, AssessFrame, AssessAttempts, Mint, OverBudget, ActionRecord, Keys;
  }

  lemma {:induction false} DriveIsSpent(c: Setup, m: Machine, inp: StepInput)
    requires AllSpent(c, m)
    ensures AllSpent(c, Drive(c, m, inp))
    decreases m.pc.Begin?, Rank(m.pc)
  {
    hide Next, Apply;
    var move := Next(c, m.st, m.pc, inp);
    NextDescends(c, m.st, m.pc, inp);
    SpentMoves(c, m.st, m.pc, inp);
    if !move.Stop? { DriveIsSpent(c, Make(m, move), inp); }
  }

  /** The budget is the only way there: over any history, wherever a run failed for max_steps, the next
      step would have been past the limit. */
  lemma {:induction false} OnlyTheBudgetStops(c: Setup, calls: seq<Call>)
    ensures AllSpent(c, History(c, calls))
  {
    hide Drive, Apply;
    if calls != [] {
      var m := History(c, calls[..|calls| - 1]);
      OnlyTheBudgetStops(c, calls[..|calls| - 1]);
      if calls[|calls| - 1].CallStep? { DriveIsSpent(c, m.(pc := Begin), calls[|calls| - 1].inp); }
    }
  }

  /** With a step budget, one `run()` makes at most one step more than the budget that is left. */
  lemma {:induction false} RunStopsByBudget(c: Setup, m: Machine, inputs: seq<StepInput>)
    requires c.config.maxSteps > 0 && Inv(c, m) && m.pc.Idle?
    ensures var left := if m.st.step < c.config.maxSteps then c.config.maxSteps - m.st.step else 0;
            Schedule(c, m, inputs).steps <= left + 1
    decreases |inputs|
  {
    hide Inv, Drive;
    if inputs != [] && m.st.status.Running? {
      var n := StepRun(c, m, inputs[0]);
      if m.st.step + 1 > c.config.maxSteps {
        StepBudgetStops(c, m, inputs[0]);
      } else {
        StepAdvances(c, m, inputs[0]);
        PerformKeepsInv(c, m, CallStep(inputs[0]));
        RunStopsByBudget(c, n, inputs[1..]);
      }
    }
  }
}
