/** How one recorded event changes the kernel state, and the fold over a log (core/reduce.py). */
module KernelReduce {
  import opened JsonModel
  import opened KernelTypes

  function InitialState(c: Setup): RuntimeState {
    RuntimeState(c.runId, c.task, Running, None, 0, 0, None, false, 0, [], {}, [], [], [], [], map[], 0,
                 Counters(0, 0, 0, 0), c.startedAt)
  }

  function Max(a: nat, b: int): nat { if a < b then b else a }

  function Updated<T>(before: seq<T>, given: seq<T>): seq<T> { if given == [] then before else given }

  function UpdateTask(t: TaskSpec, u: TaskUpdate): TaskSpec {
    TaskSpec(if u.goal.Some? then u.goal.value else t.goal,
             t.inputs + u.inputs,
             Updated(t.constraints, u.constraints),
             Updated(t.successCriteria, u.successCriteria),
             Updated(t.authorization, u.authorization))
  }

  function Apply(before: RuntimeState, e: Event): RuntimeState {
    var st := before.(step := Max(before.step, e.step));
    match e.body
    case RunStarted => st.(status := Running)
    case TaskUpdated(u) => st.(task := UpdateTask(st.task, u), stateVersion := st.stateVersion + 1)
    case ObserveFailed => st.(observationStale := true, stateVersion := st.stateVersion + 1)
    case Observed(o, _) =>
      var changed := st.observation.None? || st.observation.value.revision != o.revision;
      st.(observation := Some(o), observationStale := false, observations := st.observations + 1,
          deadActions := if changed then {} else st.deadActions, stateVersion := st.stateVersion + 1)
    case FrameBuilt(_, fp, _, _) =>
      st.(frameVisits := st.frameVisits[fp := st.Visits(fp) + 1], stateVersion := st.stateVersion + 1)
    case GuardRaised(g) =>
      st.(deadActions := st.deadActions + g.deadKeys,
          guardEscalations := st.guardEscalations + if g.escalate then 1 else 0)
    case DecisionMade(_) => st.(counters := st.counters.(decisions := st.counters.decisions + 1))
    case DecisionRejected(_) => st.(counters := st.counters.(rejected := st.counters.rejected + 1))
    case IntentRecorded(_, _, _, _) => st.(counters := st.counters.(intents := st.counters.intents + 1))
    case ReceiptRecorded(op, key, args, idem, status) =>
      var known := exists u | u in st.unresolved :: u.operationId == op;
      st.(attempts := st.attempts + [Attempt(st.Revision(), key, status, e.step)],
          unresolved := if status.Unresolved() && !known
                        then st.unresolved + [UnresolvedOperation(op, key, status, e.step, args, idem)]
                        else st.unresolved,
          counters := st.counters.(executions := st.counters.executions + 1),
          stateVersion := st.stateVersion + 1)
    case OperationResolved(op, key, status) =>
      st.(unresolved := Without(st.unresolved, op),
          attempts := st.attempts + [Attempt(st.Revision(), key, status, e.step)])
    case Verified(v) => st.(verifications := st.verifications + [v])
    case RunSuspended(reason) => st.(status := Suspended, stopReason := Some(reason))
    case Resumed(input) =>
      st.(status := Running, stopReason := None,
          resumeInputs := if input.Some? then st.resumeInputs + [input.value] else st.resumeInputs)
    case RunFinished(status, reason) => st.(status := status, stopReason := reason)
    case StepRecorded(record) => st.(history := st.history + [record])
    case Offered(_) => st
    case ErrorRaised(_) => st
  }

  function Without(ops: seq<UnresolvedOperation>, op: OperationId): (r: seq<UnresolvedOperation>)
    ensures forall u | u in r :: u in ops && u.operationId != op
    ensures forall u | u in ops && u.operationId != op :: u in r
    ensures |r| <= |ops|
  {
    if ops == [] then []
    else (if ops[0].operationId == op then [] else [ops[0]]) + Without(ops[1..], op)
  }

  /** The left fold of the log, written from its last event. */
  function Replay(st: RuntimeState, log: seq<Event>): RuntimeState {
    if log == [] then st else Apply(Replay(st, log[..|log| - 1]), log[|log| - 1])
  }

  lemma ReplayAppend(st: RuntimeState, log: seq<Event>, e: Event)
    ensures Replay(st, log + [e]) == Apply(Replay(st, log), e)
  {
    assert (log + [e])[..|log|] == log;
  }

  /** `replay` as the source writes it: one pass over the events, front to back. */
  method ReplayLog(events: seq<Event>, initial: RuntimeState) returns (st: RuntimeState)
    ensures st == Replay(initial, events)
  {
    st := initial;
    for i := 0 to |events|
      invariant st == Replay(initial, events[..i])
    {
      ReplayAppend(initial, events[..i], events[i]);
      assert events[..i + 1] == events[..i] + [events[i]];
      st := Apply(st, events[i]);
    }
    assert events[..|events|] == events;
  }
}
