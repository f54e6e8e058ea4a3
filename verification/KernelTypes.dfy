/** Value types of the decision kernel (core/types.py, core/events.py). Timestamps, latency and
    free-text details carry no control flow and are not represented. */
module KernelTypes {
  import opened JsonModel

  datatype RunStatus = Running | Suspended | Succeeded | Failed | Cancelled {
    predicate Terminal() { Succeeded? || Failed? || Cancelled? }
  }

  datatype StopReason =
    | MaxSteps | BudgetExhausted | CycleDetected | NoProgressMade | PolicyBlocked | AwaitingResult
    | AwaitingEvidence | VerificationExhausted | CancelledByHost | PolicyError

  datatype Effect = ReadOnly | LocalWrite | ExternalWrite {
    predicate Mutates() { !ReadOnly? }
  }

  datatype Idempotency = Safe | Queryable | NoGuarantee

  datatype ReceiptStatus = Completed | Rejected | Pending | Unknown {
    predicate Unresolved() { Pending? || Unknown? }
  }

  datatype Verdict = Satisfied | Unsatisfied | Undecided

  datatype Control = Refresh | RequestFinish | Blocked | Wait

  datatype GuardKind = NoGuard | NoProgress | Repeat | Cycle

  datatype TaskSpec = TaskSpec(
    goal: string,
    inputs: Fields,
    constraints: seq<string>,
    successCriteria: seq<string>,
    authorization: seq<string>)

  /** The optional keys of a TASK_UPDATED event; an empty sequence is falsy and keeps the old value.
      The mapping is passed on as it is, so a `step` in it becomes the step of the event itself. */
  datatype TaskUpdate = TaskUpdate(
    goal: Option<string>,
    inputs: Fields,
    constraints: seq<string>,
    successCriteria: seq<string>,
    authorization: seq<string>,
    step: Option<int>)

  datatype Observation = Observation(revision: string, payload: Fields)

  datatype Candidate = Candidate(
    key: string,
    capability: string,
    description: string,
    args: Fields,
    effect: Effect,
    idempotency: Idempotency,
    observation: Option<string>,
    complete: bool,
    id: string)

  /** The fields of a candidate that enter the fingerprint. */
  datatype CandidateView = CandidateView(
    id: string, key: string, capability: string, description: string, args: Fields, effect: Effect, complete: bool)

  /** `f{version}:{fingerprint[:8]}` */
  datatype FrameId = FrameId(version: nat, tag: string)

  datatype Decision = Decision(frameId: FrameId, candidateId: Option<string>, control: Option<Control>)

  /** `{run}.{step}.{digest}` when the kernel mints it; an environment's receipt may carry any text. */
  datatype OperationId = Minted(runId: string, step: nat, digest: string) | Foreign(text: string)

  datatype UnresolvedOperation = UnresolvedOperation(
    operationId: OperationId, key: string, status: ReceiptStatus, step: int, args: Fields, idempotency: Idempotency)

  datatype Attempt = Attempt(observation: string, key: string, status: ReceiptStatus, step: int)

  datatype StepRecord = StepRecord(
    step: nat,
    frameId: FrameId,
    observation: string,
    candidateKey: Option<string>,
    control: Option<Control>,
    receipt: Option<ReceiptStatus>,
    changed: bool)

  datatype Counters = Counters(decisions: nat, rejected: nat, intents: nat, executions: nat)

  datatype RuntimeState = RuntimeState(
    runId: string,
    task: TaskSpec,
    status: RunStatus,
    stopReason: Option<StopReason>,
    step: nat,
    stateVersion: nat,
    observation: Option<Observation>,
    observationStale: bool,
    observations: nat,
    unresolved: seq<UnresolvedOperation>,
    deadActions: set<string>,
    attempts: seq<Attempt>,
    history: seq<StepRecord>,
    verifications: seq<Verdict>,
    resumeInputs: seq<Json>,
    frameVisits: map<string, nat>,
    guardEscalations: nat,
    counters: Counters,
    startedAt: real)
  {
    function Revision(): string { if observation.Some? then observation.value.revision else "unknown" }

    function UnresolvedKeys(): set<string> { set op | op in unresolved :: op.key }

    function Visits(fingerprint: string): nat {
      if fingerprint in frameVisits then frameVisits[fingerprint] else 0
    }
  }

  datatype LoopConfig = LoopConfig(
    maxSteps: int,
    maxSeconds: Option<real>,
    maxVerifications: int,
    maxFrameVisits: int,
    maxGuardEscalations: int,
    postObserve: bool,
    controls: seq<Control>,
    maxOptions: int,
    frameCharBudget: int)

  /** The part of the state that can yield progress; its hash is the frame fingerprint. */
  datatype Stability = Stability(
    revision: string,
    goal: string,
    inputs: Fields,
    candidates: seq<CandidateView>,
    controls: seq<Control>,
    excluded: set<string>)

  datatype Frame = Frame(
    frameId: FrameId,
    stateVersion: nat,
    fingerprint: string,
    revision: string,
    candidates: seq<Candidate>,
    controls: seq<Control>)
  {
    function Find(id: string): Option<Candidate> { FindIn(candidates, id) }

    static function FindIn(cs: seq<Candidate>, id: string): (r: Option<Candidate>)
      ensures r.Some? ==> r.value in cs && r.value.id == id
      ensures r.None? ==> forall c | c in cs :: c.id != id
    {
      if cs == [] then None else if cs[0].id == id then Some(cs[0]) else FindIn(cs[1..], id)
    }
  }

  datatype GuardOutcome = GuardOutcome(kind: GuardKind, deadKeys: set<string>, escalate: bool)

  const QUIET := GuardOutcome(NoGuard, {}, false)

  datatype Payload =
    | RunStarted
    | TaskUpdated(update: TaskUpdate)
    | Observed(observation: Observation, changed: bool)
    | ObserveFailed
    | Offered(keys: seq<string>)
    | FrameBuilt(frameId: FrameId, fingerprint: string, candidateCount: nat, optionCount: nat)
    | GuardRaised(outcome: GuardOutcome)
    | DecisionMade(decision: Decision)
    | DecisionRejected(candidateId: Option<string>)
    | IntentRecorded(intent: OperationId, intentKey: string, intentArgs: Fields, effect: Effect)
    | ReceiptRecorded(operation: OperationId, key: string, args: Fields, idempotency: Idempotency,
                      status: ReceiptStatus)
    | OperationResolved(resolved: OperationId, resolvedKey: string, resolvedStatus: ReceiptStatus)
    | Verified(verdict: Verdict)
    | RunSuspended(suspendReason: StopReason)
    | Resumed(input: Option<Json>)
    | RunFinished(finalStatus: RunStatus, finalReason: Option<StopReason>)
    | StepRecorded(record: StepRecord)
    | ErrorRaised(stage: Stage)

  datatype Stage = QueryStage | PolicyStage | ExecuteStage

  datatype Event = Event(seqNo: nat, step: int, body: Payload)

  /** What a `Loop` is constructed with. The two hash functions are arbitrary. */
  datatype Setup = Setup(
    runId: string,
    task: TaskSpec,
    startedAt: real,
    config: LoopConfig,
    hasVerifier: bool,
    hash: Stability -> string,
    operationHash: (string, Fields) -> string)

  datatype QueryAnswer = QueryFailed | NoReceipt | QueryReceipt(status: ReceiptStatus)

  datatype ExecuteAnswer = ExecRejected | ExecCrashed | ExecReceipt(operationId: OperationId, status: ReceiptStatus)

  /** Everything the outside world answers during one step: clock, environment, policy, verifier
      and host hooks. `None` stands for the exception the kernel catches at that call. The k-th
      query of the step is answered by `queries[k]`, and by "still unresolved" past the end. */
  datatype StepInput = StepInput(
    now: real,
    queries: seq<QueryAnswer>,
    observe: Option<Observation>,
    candidates: seq<Candidate>,
    frameChars: nat,
    decision: Option<Decision>,
    environmentVeto: bool,
    hostVeto: bool,
    execute: ExecuteAnswer,
    observeAfter: Option<Observation>,
    verdict: Option<Verdict>)
  {
    function Query(k: nat): QueryAnswer { if k < |queries| then queries[k] else NoReceipt }
  }
}
