/** Every step of every run, read off its log: each event is the one that is due after those before it, and
    the step ends when nothing is due (core/loop.py:170-644). */
module KernelLaws {
  import opened JsonModel
  import opened KernelTypes
  import opened KernelReduce
  import opened KernelGuards
  import opened KernelInvariants
  import opened KernelMachine
  import opened KernelWorld
  import opened KernelLedger
  import opened KernelTrace
  import opened KernelRuns
  import opened KernelTheorems
  import opened KernelGrammar

  lemma MovePlaces(c: Setup, inp: StepInput, m: Machine, k: nat)
    requires Placed(c, inp, m, k) && Bound(m.st, m.pc) && Settled(m)
    ensures Placed(c, inp, Make(m, Next(c, m.st, m.pc, inp)), k)
  {
    hide Next, Make, Placed;
    match m.pc
    case Begin => StartPlaces(c, inp, m, k);
    case Resolving(_, _) => QueryPlaces(c, inp, m, k);
    case Observing => ObservePlaces(c, inp, m, k);
    case Offering(_) => OfferPlaces(c, inp, m, k);
    case Building(_) => FramePlaces(c, inp, m, k);
    case Assessing(_, _) => AssessmentPlaces(c, inp, m, k);
    case FrameGuarded(_) => AssessmentPlaces(c, inp, m, k);
    case Deciding(_) => DecisionPlaces(c, inp, m, k);
    case Validating(_, _) => ValidationPlaces(c, inp, m, k);
    case Executing(_, _, _) =>
      if inp.execute.ExecCrashed? { CrashPlaces(c, inp, m, k); } else { ReceiptPlaces(c, inp, m, k); }
    case Crashed(_, _, _) => ReceiptPlaces(c, inp, m, k);
    case PostObserving(_, _, _) => LookPlaces(c, inp, m, k);
    case Accounting(_, _, _, _) => AccountPlaces(c, inp, m, k);
    case Recording(_, _, _, _, _) => RecordPlaces(c, inp, m, k);
    case Escalating(_) => BarePlaces(c, inp, m, k);
    case Judging(_) => BarePlaces(c, inp, m, k);
    case Verifying => VerifyPlaces(c, inp, m, k);
    case _ => EndPlaces(c, inp, m, k);
  }

  /** From `from` on, every event is the one that was due. */
  ghost predicate Lawful(c: Setup, inp: StepInput, log: seq<Event>, k: nat, from: nat) {
    && from <= |log|
    && forall i | from <= i < |log| ::
         Due(c, inp, Replay(InitialState(c), log[..i]), log[..i], k) == Some((log[i].step, log[i].body))
  }

  lemma {:induction false} DriveIsLawful(c: Setup, m: Machine, inp: StepInput, k: nat)
    requires Inv(c, m) && Shaped(m, inp) && Placed(c, inp, m, k)
    ensures var n := Drive(c, m, inp);
            && Lawful(c, inp, n.log, k, |m.log|) && m.log <= n.log && k <= |n.log|
            && Due(c, inp, n.st, n.log, k) == None && n.st == Replay(InitialState(c), n.log)
    decreases m.pc.Begin?, KernelMachine.Rank(m.pc)
  {
    hide Inv, Shaped, Next, Due, Scene, Apply, Upcoming;
    var move := Next(c, m.st, m.pc, inp);
    PartsOfInv(c, m);
    UpcomingGo(c, m.st, m.pc, inp);
    if !move.Stop? {
      NextDescends(c, m.st, m.pc, inp);
      MoveKeepsInv(c, m, inp);
      MovePlaces(c, inp, m, k);
      var n := Make(m, move);
      DriveIsLawful(c, n, inp, k);
      var all := Drive(c, n, inp).log;
      assert all[..|m.log|] == m.log;
      if move.Say? { assert n.log[|m.log|] == Event(|m.log| + 1, move.step, move.body) == all[|m.log|]; }
    }
  }

  lemma PartsOfInv(c: Setup, m: Machine)
    requires Inv(c, m)
    ensures Bound(m.st, m.pc) && Settled(m) && m.st == Replay(InitialState(c), m.log)
  {
    InvParts(c, m);
    hide Inv, Bound, Settled;
  }

  /** One call of step() in any state that any calls can reach. */
  lemma StepIsLawful(c: Setup, calls: seq<Call>, inp: StepInput)
    ensures var m := History(c, calls);
            var n := StepRun(c, m, inp);
            && m.log <= n.log && Lawful(c, inp, n.log, |m.log|, |m.log|)
            && Due(c, inp, n.st, n.log, |m.log|) == None && n.st == Replay(InitialState(c), n.log)
  {
    hide Inv, Drive, Due, Lawful;
    HistoryKeepsInv(c, calls);
    var m := History(c, calls);
    BeginKeepsInv(c, m);
    PartsOfInv(c, m.(pc := Begin));
    BeginIsPlaced(c, inp, m.(pc := Begin), |m.log|);
    DriveIsLawful(c, m.(pc := Begin), inp, |m.log|);
  }

  function Saying(log: seq<Event>, i: nat): Option<(int, Payload)> {
    if i < |log| then Some((log[i].step, log[i].body)) else None
  }

  /** What follows the event at `i` of a step, or that nothing does. */
  lemma Successor(c: Setup, calls: seq<Call>, inp: StepInput, i: nat)
    requires var m := History(c, calls); |m.log| <= i < |StepRun(c, m, inp).log|
    ensures var k, log := |History(c, calls).log|, StepRun(c, History(c, calls), inp).log;
            && log[..i + 1] == log[..i] + [log[i]]
            && Due(c, inp, Replay(InitialState(c), log[..i + 1]), log[..i + 1], k) == Saying(log, i + 1)
  {
    hide History, StepRun, Due, Replay;
    StepIsLawful(c, calls, inp);
    var log := StepRun(c, History(c, calls), inp).log;
    if i + 1 == |log| { assert log[..i + 1] == log; }
  }

  // ---- what happened to an action ----

  predicate IsReceiptOf(intent: Event, e: Event, id: OperationId, status: ReceiptStatus) {
    && intent.body.IntentRecorded? && e.body.ReceiptRecorded?
    && e.body.operation == id && e.body.key == intent.body.intentKey && e.body.args == intent.body.intentArgs
    && e.body.status == status
  }

  /** After an intent the receipt says what the environment said: a rejection, or its own id and status.
      When the execution raised, the error is recorded, and then that the outcome is unknown. */
  lemma ReceiptsAreTrue(c: Setup, calls: seq<Call>, inp: StepInput, i: nat)
    requires var m := History(c, calls);
             |m.log| <= i < |StepRun(c, m, inp).log| && StepRun(c, m, inp).log[i].body.IntentRecorded?
    ensures var log := StepRun(c, History(c, calls), inp).log;
            var intent := log[i];
            match inp.execute
            case ExecRejected => i + 1 < |log| && IsReceiptOf(intent, log[i + 1], intent.body.intent, Rejected)
            case ExecReceipt(id, status) => i + 1 < |log| && IsReceiptOf(intent, log[i + 1], id, status)
            case ExecCrashed =>
              && i + 2 < |log| && log[i + 1].body == ErrorRaised(ExecuteStage)
              && IsReceiptOf(intent, log[i + 2], intent.body.intent, Unknown)
  {
    hide History, StepRun, Due, Replay, Idempotent;
    var k, log := |History(c, calls).log|, StepRun(c, History(c, calls), inp).log;
    Successor(c, calls, inp, i);
    DueAfter(c, inp, Replay(InitialState(c), log[..i + 1]), log[..i], log[i], k);
    if inp.execute.ExecCrashed? {
      Successor(c, calls, inp, i + 1);
      DueAfter(c, inp, Replay(InitialState(c), log[..i + 2]), log[..i + 1], log[i + 1], k);
      assert log[..i + 2][i] == log[i];
    }
  }

  /** A crash ends the step with the receipt and its record, and leaves exactly that operation open. */
  lemma CrashLeavesItOpen(c: Setup, calls: seq<Call>, inp: StepInput, i: nat)
    requires var m := History(c, calls);
             |m.log| <= i < |StepRun(c, m, inp).log| && StepRun(c, m, inp).log[i].body.IntentRecorded?
    requires inp.execute.ExecCrashed?
    ensures var n := StepRun(c, History(c, calls), inp);
            && |n.log| == i + 4 && n.log[i + 3].body.StepRecorded?
            && |n.st.unresolved| == 1
            && n.st.unresolved[0].operationId == n.log[i].body.intent && n.st.unresolved[0].status == Unknown
            && n.st.unresolved[0].key == n.log[i].body.intentKey && n.st.unresolved[0].args == n.log[i].body.intentArgs
  {
    hide History, StepRun, Due, Replay, Idempotent, Apply, Inv, SeenAt, FrameAt;
    var m, n := History(c, calls), StepRun(c, History(c, calls), inp);
    var k, log := |m.log|, n.log;
    ReceiptsAreTrue(c, calls, inp, i);
    StepIsLawful(c, calls, inp);
    NothingOpenBefore(c, calls, inp, i);
    var before := Replay(InitialState(c), log[..i + 2]);
    var after := Replay(InitialState(c), log[..i + 3]);
    assert log[..i + 3] == log[..i + 2] + [log[i + 2]];
    ReplayAppend(InitialState(c), log[..i + 2], log[i + 2]);
    OpenReceipt(before, log[i + 2]);
    Successor(c, calls, inp, i + 2);
    DueAfter(c, inp, after, log[..i + 2], log[i + 2], k);
    ClosesAtOnce(c, after, inp, log[..i + 3], log[i + 2].body);
    Successor(c, calls, inp, i + 3);
    var last := Replay(InitialState(c), log[..i + 4]);
    DueAfter(c, inp, last, log[..i + 3], log[i + 3], k);
    assert log[..i + 4][i + 2] == log[i + 2];
    NothingAfterRecord(c, last, inp, log[..i + 4], log[i + 3].body.record);
    assert log[..i + 4] == log;
    ReplayAppend(InitialState(c), log[..i + 3], log[i + 3]);
    RecordOpensNothing(after, log[i + 3]);
  }

  lemma NothingOpenBefore(c: Setup, calls: seq<Call>, inp: StepInput, i: nat)
    requires var m := History(c, calls);
             |m.log| <= i < |StepRun(c, m, inp).log| && StepRun(c, m, inp).log[i].body.IntentRecorded?
    requires i + 1 < |StepRun(c, History(c, calls), inp).log|
             && StepRun(c, History(c, calls), inp).log[i + 1].body.ErrorRaised?
    ensures Replay(InitialState(c), StepRun(c, History(c, calls), inp).log[..i + 2]).unresolved == []
  {
    hide StepRun, Replay, History, Definite;
    HistoryOfStep(c, calls, inp);
    OpenOperationsAreNeverResent(c, calls + [CallStep(inp)]);
    StillNothingOpen(c, StepRun(c, History(c, calls), inp).log, i);
  }

  lemma StillNothingOpen(c: Setup, log: seq<Event>, i: nat)
    requires i + 1 < |log| && log[i].body.IntentRecorded? && log[i + 1].body.ErrorRaised?
    requires Replay(InitialState(c), log[..i]).unresolved == []
    ensures Replay(InitialState(c), log[..i + 2]).unresolved == []
  {
    hide Replay, Apply;
    assert log[..i + 1] == log[..i] + [log[i]] && log[..i + 2] == log[..i + 1] + [log[i + 1]];
    ReplayAppend(InitialState(c), log[..i], log[i]);
    ReplayAppend(InitialState(c), log[..i + 1], log[i + 1]);
    IntentOpensNothing(Replay(InitialState(c), log[..i]), log[i]);
    IntentOpensNothing(Replay(InitialState(c), log[..i + 1]), log[i + 1]);
  }

  lemma HistoryOfStep(c: Setup, calls: seq<Call>, inp: StepInput)
    ensures History(c, calls + [CallStep(inp)]) == StepRun(c, History(c, calls), inp)
  {
    hide StepRun;
    assert (calls + [CallStep(inp)])[..|calls|] == calls;
  }

  lemma IntentOpensNothing(st: RuntimeState, e: Event)
    requires e.body.IntentRecorded? || e.body.ErrorRaised?
    ensures Apply(st, e).unresolved == st.unresolved
  {
  }

  lemma RecordOpensNothing(st: RuntimeState, e: Event)
    requires e.body.StepRecorded?
    ensures Apply(st, e).unresolved == st.unresolved
  {
  }

  lemma OpenReceipt(st: RuntimeState, e: Event)
    requires st.unresolved == [] && e.body.ReceiptRecorded? && e.body.status == Unknown
    ensures var open := Apply(st, e).unresolved;
            && |open| == 1 && open[0].operationId == e.body.operation && open[0].key == e.body.key
            && open[0].status == Unknown && open[0].args == e.body.args
  {
  }

  lemma ClosesAtOnce(c: Setup, st: RuntimeState, inp: StepInput, log: seq<Event>, receipt: Payload)
    requires st.unresolved != [] && receipt.ReceiptRecorded?
    ensures AfterReceipt(c, st, inp, log, receipt).Some?
    ensures AfterReceipt(c, st, inp, log, receipt).value.1.StepRecorded?
            && AfterReceipt(c, st, inp, log, receipt).value.1.record.control == None
  {
    hide SeenAt, FrameAt, Offer;
  }

  lemma NothingAfterRecord(c: Setup, st: RuntimeState, inp: StepInput, log: seq<Event>, record: StepRecord)
    requires record.control == None && |log| >= 2 && log[|log| - 2].body.ReceiptRecorded?
    ensures AfterRecord(c, st, inp, log, record) == None
  {
  }

  // ---- over whole runs ----

  /** What stands after an intent: its receipt, or an error and then the receipt of an unknown outcome. */
  predicate Accounted(log: seq<Event>, i: nat)
    requires i < |log| && log[i].body.IntentRecorded?
  {
    && i + 1 < |log|
    && if log[i + 1].body.ReceiptRecorded? then log[i + 1].body.key == log[i].body.intentKey
       else
         && i + 2 < |log| && log[i + 1].body == ErrorRaised(ExecuteStage)
         && IsReceiptOf(log[i], log[i + 2], log[i].body.intent, Unknown)
  }

  /** What stands after the record of a control: the world, the policy's pause, the wait or the verdict. */
  predicate Obeyed(log: seq<Event>, i: nat)
    requires i < |log| && log[i].body.StepRecorded?
  {
    match log[i].body.record.control
    case Some(Blocked) => i + 1 < |log| && log[i + 1].body == RunSuspended(PolicyBlocked)
    case Some(Wait) => i + 1 < |log| && log[i + 1].body == RunSuspended(AwaitingResult)
    case Some(RequestFinish) => i + 1 < |log| && log[i + 1].body.Verified?
    case _ => true
  }

  ghost predicate Told(log: seq<Event>) {
    && (forall i: nat | i < |log| && log[i].body.IntentRecorded? :: Accounted(log, i))
    && (forall i: nat | i < |log| && log[i].body.StepRecorded? :: Obeyed(log, i))
  }

  lemma RecordIsObeyed(c: Setup, calls: seq<Call>, inp: StepInput, i: nat)
    requires var m := History(c, calls);
             |m.log| <= i < |StepRun(c, m, inp).log| && StepRun(c, m, inp).log[i].body.StepRecorded?
    ensures Obeyed(StepRun(c, History(c, calls), inp).log, i)
  {
    hide History, StepRun, Due, Replay;
    var k, log := |History(c, calls).log|, StepRun(c, History(c, calls), inp).log;
    Successor(c, calls, inp, i);
    DueAfter(c, inp, Replay(InitialState(c), log[..i + 1]), log[..i], log[i], k);
  }

  lemma ToldExtends(log: seq<Event>, longer: seq<Event>)
    requires Told(log) && log <= longer
    requires forall i: nat | |log| <= i < |longer| && longer[i].body.IntentRecorded? :: Accounted(longer, i)
    requires forall i: nat | |log| <= i < |longer| && longer[i].body.StepRecorded? :: Obeyed(longer, i)
    ensures Told(longer)
  {
    forall i: nat | i < |longer| && longer[i].body.IntentRecorded? ensures Accounted(longer, i) {
      if i < |log| { assert longer[i] == log[i] && Accounted(log, i); }
    }
    forall i: nat | i < |longer| && longer[i].body.StepRecorded? ensures Obeyed(longer, i) {
      if i < |log| { assert longer[i] == log[i] && Obeyed(log, i); }
    }
  }

  lemma HostCallsExtend(m: Machine, call: Call, c: Setup)
    requires !call.CallStep?
    ensures m.log <= Perform(c, m, call).log
    ensures forall i: nat | |m.log| <= i < |Perform(c, m, call).log| ::
              !Perform(c, m, call).log[i].body.IntentRecorded? && !Perform(c, m, call).log[i].body.StepRecorded?
  {
    hide Apply;
  }

  /** Over every history, resumes and cancellations included. */
  lemma {:induction false} RunsTellTheTruth(c: Setup, calls: seq<Call>)
    ensures Told(History(c, calls).log)
  {
    hide Told, StepRun, Apply, Accounted, Obeyed;
    if calls == [] {
      StartTells(c);
    } else {
      var before, call := calls[..|calls| - 1], calls[|calls| - 1];
      RunsTellTheTruth(c, before);
      var m, n := History(c, before), History(c, calls);
      match call
      case CallStep(inp) =>
        StepExtends(c, before, inp);
        forall i: nat | |m.log| <= i < |n.log| && n.log[i].body.IntentRecorded? ensures Accounted(n.log, i) {
          IntentIsAccounted(c, before, inp, i);
        }
        forall i: nat | |m.log| <= i < |n.log| && n.log[i].body.StepRecorded? ensures Obeyed(n.log, i) {
          RecordIsObeyed(c, before, inp, i);
        }
        ToldExtends(m.log, n.log);
      case _ =>
        HostCallsExtend(m, call, c);
        ToldExtends(m.log, n.log);
    }
  }

  lemma StepExtends(c: Setup, calls: seq<Call>, inp: StepInput)
    ensures History(c, calls).log <= StepRun(c, History(c, calls), inp).log
  {
    hide History, StepRun, Due, Replay, Lawful;
    StepIsLawful(c, calls, inp);
  }

  lemma IntentIsAccounted(c: Setup, calls: seq<Call>, inp: StepInput, i: nat)
    requires var m := History(c, calls);
             |m.log| <= i < |StepRun(c, m, inp).log| && StepRun(c, m, inp).log[i].body.IntentRecorded?
    ensures Accounted(StepRun(c, History(c, calls), inp).log, i)
  {
    hide History, StepRun;
    ReceiptsAreTrue(c, calls, inp, i);
  }

  lemma StartTells(c: Setup)
    ensures Told(History(c, []).log)
  {
    hide Apply;
  }

  // ---- the wall clock ----

  /** Past the time limit, and within the step limit, a step of a run that is not finished records that the
      budget is exhausted and nothing else. */
  lemma TimeBudgetStops(c: Setup, calls: seq<Call>, inp: StepInput)
    requires var st := History(c, calls).st;
             && !st.status.Terminal() && !(c.config.maxSteps != 0 && st.step >= c.config.maxSteps)
             && c.config.maxSeconds.Some? && c.config.maxSeconds.value != 0.0
             && inp.now > st.startedAt + c.config.maxSeconds.value
    ensures var m := History(c, calls);
            var n := StepRun(c, m, inp);
            |n.log| == |m.log| + 1 && n.log[|m.log|].body == RunFinished(Failed, Some(BudgetExhausted))
  {
    hide History, StepRun, Due, Replay, Inv;
    var m, n := History(c, calls), StepRun(c, History(c, calls), inp);
    StepIsLawful(c, calls, inp);
    HistoryKeepsInv(c, calls);
    PartsOfInv(c, m);
    DueFirst(c, inp, m.st, m.log);
    assert n.log[..|m.log|] == m.log;
    assert n.log[..|n.log|] == n.log;
    if |n.log| > |m.log| {
      Successor(c, calls, inp, |m.log|);
      DueAfter(c, inp, Replay(InitialState(c), n.log[..|m.log| + 1]), m.log, n.log[|m.log|], |m.log|);
    }
  }

  lemma DueFirst(c: Setup, inp: StepInput, st: RuntimeState, log: seq<Event>)
    ensures Due(c, inp, st, log, |log|) == AtStart(c, st, inp)
  {
  }

  // ---- what the host does between steps ----

  /** No call does anything to a finished run. */
  lemma {:induction false} FinishedIsFrozen(c: Setup, calls: seq<Call>, more: seq<Call>)
    requires History(c, calls).st.status.Terminal()
    ensures var m, n := History(c, calls), History(c, calls + more); n.st == m.st && n.log == m.log
  {
    hide Inv, StepRun, Lawful;
    if more == [] {
      assert calls + more == calls;
    } else {
      var before, call := more[..|more| - 1], more[|more| - 1];
      FinishedIsFrozen(c, calls, before);
      assert (calls + more)[..|calls + more| - 1] == calls + before;
      if call.CallStep? { FinishedStep(c, calls + before, call.inp); }
    }
  }

  lemma FinishedStep(c: Setup, calls: seq<Call>, inp: StepInput)
    requires History(c, calls).st.status.Terminal()
    ensures var m := History(c, calls); StepRun(c, m, inp).log == m.log && StepRun(c, m, inp).st == m.st
  {
    hide History, StepRun, Inv, Due, Replay;
    var m, n := History(c, calls), StepRun(c, History(c, calls), inp);
    StepIsLawful(c, calls, inp);
    HistoryKeepsInv(c, calls);
    PartsOfInv(c, m);
    DueFirst(c, inp, m.st, m.log);
    assert n.log[..|m.log|] == m.log;
  }

  /** Cancelling a run that is not finished records so, once and for all. */
  lemma CancelEndsTheRun(c: Setup, calls: seq<Call>, more: seq<Call>)
    requires !History(c, calls).st.status.Terminal()
    ensures var m, n := History(c, calls), History(c, calls + [CallCancel] + more);
            && n.log == m.log + [Event(|m.log| + 1, m.st.step, RunFinished(Cancelled, Some(CancelledByHost)))]
            && n.st.status == Cancelled && n.st.step == m.st.step && n.st.unresolved == m.st.unresolved
  {
    hide StepRun;
    assert (calls + [CallCancel])[..|calls|] == calls;
    assert History(c, calls + [CallCancel]).st.status == Cancelled;
    FinishedIsFrozen(c, calls + [CallCancel], more);
  }

  /** Resuming a run that is not finished records the input and then the update, and the run is up again
      with everything that was open still open. */
  lemma ResumeReopens(c: Setup, calls: seq<Call>, input: Option<Json>, update: Option<TaskUpdate>)
    requires !History(c, calls).st.status.Terminal()
    ensures var m, n := History(c, calls), History(c, calls + [CallResume(input, update)]);
            && n.st.status == Running && n.st.unresolved == m.st.unresolved
            && m.log <= n.log && n.log[|m.log|..]
               == [Event(|m.log| + 1, m.st.step, Resumed(input))]
                  + if update.None? then []
                    else [Event(|m.log| + 2, if update.value.step.Some? then update.value.step.value else m.st.step,
                                TaskUpdated(update.value))]
  {
    hide StepRun, Apply;
    assert (calls + [CallResume(input, update)])[..|calls|] == calls;
    var m := History(c, calls);
    var woken := Record(m, m.st.step, Resumed(input), Idle);
    ResumedReopens(m.st, Event(|m.log| + 1, m.st.step, Resumed(input)));
    if update.Some? {
      var e := Event(|m.log| + 2, UpdateStep(woken.st, update.value), TaskUpdated(update.value));
      UpdateReopensNothing(woken.st, e);
      var n := Record(woken, e.step, e.body, Idle);
      assert n.log[|m.log|..] == [Event(|m.log| + 1, m.st.step, Resumed(input)), e];
    }
  }

  lemma ResumedReopens(st: RuntimeState, e: Event)
    requires e.body.Resumed? && e.step == st.step
    ensures var n := Apply(st, e); n.status == Running && n.unresolved == st.unresolved && n.step == st.step
  {
  }

  lemma UpdateReopensNothing(st: RuntimeState, e: Event)
    requires e.body.TaskUpdated?
    ensures var n := Apply(st, e); n.status == st.status && n.unresolved == st.unresolved
  {
  }
}
