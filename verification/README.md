# Jev Loop: a verified model

This project models the parts of Jev Loop that hold state across calls, processes and hostile
input, and proves what they promise. To check it: `dafny verify dfyconfig.toml`.

- **Decision kernel** (`Kernel*.dfy`). `KernelMachine` is one step of the loop as a small-step machine
  whose inputs (observations, offers, decisions, receipts, verdicts, clock readings) are arbitrary. A run
  is any sequence of step, resume and cancel calls. `KernelLoop` holds the `Loop` object, each of
  whose methods is proved to take exactly the machine's moves. `KernelInvariants`, `KernelWorld`,
  `KernelLedger` and `KernelTrace` hold the invariants of single moves, `KernelRuns` puts them together
  for every reachable state, and `KernelTheorems` states what follows for whole runs. `KernelSummary` says
  what every field of the state is in terms of the log alone, by where its events stand. `KernelGrammar` says,
  without the machine, which event is due after which log, and `KernelLaws` that every step of every run
  records just that.
- **Option codec** (`Codec.dfy`). The keys of a request and the answers to it, composed with the
  kernel's validation.
- **Managed host** (`Host*.dfy`). `HostReduce`, `HostLifecycle` and `HostSummary`: the partial reducer, the
  lifecycle of a run and its state in terms of the journal. `HostAcceptance`: which events are accepted in
  which state, and why not. `HostJobs`: the job list in terms of the journal. `HostJournal` and `HostLines`:
  the journal file, down to its lines and bytes. `HostStore`: recorders that share a journal and trust its
  size. `HostBroker`: the cognition broker next to other writers. `HostAnswers`: which request and which
  reply gets which answer. `HostSharing`: the broker's view of the journal is what the recorders make of it,
  and so is a status file that claims are judged by. `HostTear`: recorders after a torn append.
  `HostExample`: a codec that meets the laws assumed of JSON. `HostClaims`: resource claims of all runs of a
  home directory.
- **Bundle scan** (`Scan*.dfy`). `ScanModel`: the file system as something that may answer anything, and the
  walk. `ScanWalk`: the walk over one mutable state. `ScanBudgets`, `ScanCoverage` and `ScanReports`: what
  holds against any file system, the truth of what a scan reports included. `ScanRefinement` and
  `ScanListing`: what holds on a tree that stands still. `ScanBoundary`: the tree that fills the byte
  budget. `ScanFingerprint`: the content fingerprint.
- **Schema validator** (`Schema*.dfy`). `SchemaModel`: the static check, the strict and legacy checks, the check of
  declared defaults. `SchemaDefinitions`, `SchemaConformance`, `SchemaEquality` and `SchemaLegacy`: what each of them
  accepts, said keyword by keyword. `SchemaTheorems`: the merge of defaults and overrides, and strict against legacy.
- `TextEncoding.dfy` is UTF-8, `Json.dfy` the JSON values, `Logs.dfy` what both kinds of event sequence share.

## Where a promise fails, and exactly when it holds

The model follows the code. In these places the code does not do what its comments or
design notes say, or does it only under a condition, which the project states as an equivalence.

- A record that holds U+0085, U+2028 or U+2029 is written unescaped (src/jev_loop/host/store.py:84) and
  cut in two on reading (line 118): the journal is then unreadable for good. `HostJournal.JournalReadsBack`
  and `HostStore.DirtyRecordBreaksTheJournal` say that this is the only way an accepted record does so.
  The goal of a start or of a task update is enough: `HostExample.StartNeedsACleanGoal` and
  `HostExample.UpdateNeedsACleanGoal`, with an ordinary text in `HostExample.AGoalCanBreakTheJournal`.
- `open` reads the events and takes the size of the file afterwards, both without the lock
  (src/jev_loop/host/store.py:50-53 and 48). What another process appends in between is missed, and the size
  hides it until the file grows again: the recorder is sound exactly when the size has not changed
  (`HostStore.AttachIsSound`). Otherwise an event it emits right away takes a number twice, after which the
  journal replays for nobody (`HostStore.LateAttachBreaksTheJournal`).
- `emit` appends after a torn tail without cutting it (src/jev_loop/host/store.py:83). The journal survives exactly
  when the tear took nothing or everything of the last record: `HostTear.EmitAfterTear`.
- A kill in the middle of a multi-byte character leaves a file that does not decode at all, although
  the comment at src/jev_loop/host/store.py:126 expects a truncated tail to be dropped. Recovery works exactly
  for cuts between characters (`HostJournal.TornFileRecovers`), and after any other cut no recorder emits again
  (`HostTear.NobodyEmitsAfterACutCharacter`).
- A task update is spread into its event (src/jev_loop/core/loop.py:145), so a `step` in it becomes the event's own
  step and may turn it back: `KernelTheorems.StepsNeverDecrease`.
- A CYCLE guard carries no keys and therefore always suspends (src/jev_loop/core/loop.py:237); it never escalates to
  cycle_detected, which only a REPEAT guard reaches: `KernelTheorems.CyclesSuspend`.
- One pending job per dedupe key needs callers that do not write `dedupe_key` into the context
  themselves; `HostBroker.RequestKeepsOnePerKey` says for which requests it fails.
- After the claims of a run are released, two runs can never hold one key exactly when the start of that run
  was given up, it had no keys or it has released its resources: `HostClaims.ReleaseIsSafe`. The failure path of a start releases
  those of a run whose journal has not released them, if its own clean-up fails
  (src/jev_loop/host/service.py:288-291), and the next start then holds the same key: `HostClaims.EarlyReleaseLosesExclusion`.
- A tree of exactly 4 MiB scans complete only if no empty file comes after the last byte, because
  the budget is tested before a file is looked at (src/jev_loop/bundles/validate.py:735): `ScanRefinement.CompleteIffScannable`.
  So the order of a directory listing decides: `ScanBoundary.OrderDecides` and `ScanBoundary.FullTree`.
- The legacy schema profile converts bounds to floats (src/jev_loop/schema.py:135-140) and so may refuse what the strict
  one accepts. It does so exactly for values that do not survive the conversion: `SchemaTheorems.LegacyIffSurvives`.

## Model

| member | source | states |
|---|---|---|
| KernelTheorems.LogIsTheTrace | src/jev_loop/core/loop.py:598-609 | After any calls, with any environment, policy, verifier and clock: the state is the replay of the log, sequence numbers are 1..n, nothing follows RUN_FINISHED, and the status is terminal exactly when it is there |
| KernelTheorems.StepsNeverDecrease | src/jev_loop/core/loop.py:139-146 | The steps of the events never decrease exactly when no resume of a live run passes a task update whose own `step` is lower than the run's |
| KernelTheorems.UpdatesCanTurnTheStepBack | src/jev_loop/core/loop.py:144-145 | A resume with `step: -1` in its task update does turn the step back |
| KernelTheorems.SuccessNeedsEvidence | src/jev_loop/core/loop.py:511-546 | A run succeeds exactly when the event just before is a satisfied verification, and a satisfied verification always leads to success |
| KernelTheorems.IntentsAreSound | src/jev_loop/core/loop.py:298-343 | Intent ids are pairwise distinct, every intent is closed by its own receipt before the next opens, and the events before it justify it: observation, offer, frame, decision for that frame naming the id of a candidate offered in it, that candidate's key in the intent, key not excluded, nothing open |
| KernelTheorems.ChosenKeyRuns | src/jev_loop/core/loop.py:266-318 | Over a whole run the key that is executed is the one and only key that was offered, in that step, at the position which the id in the policy's decision stands for |
| KernelTheorems.StaleDecisionsNeverRun | src/jev_loop/core/loop.py:266-270 | A decision made for an earlier frame of the run never reaches execution |
| KernelTheorems.NoExecutionRepeats | src/jev_loop/core/loop.py:290-318 | No action key is executed twice on one observation revision, over a whole run with resumes |
| KernelTheorems.ExecutionsAreBounded | src/jev_loop/core/guards.py:70-80 | With finitely many revisions R and keys K, at most R times K executions ever happen |
| KernelTheorems.OpenOperationsAreNeverResent | src/jev_loop/core/loop.py:186-191 | At most one operation is open, nothing executes while one is, one leaves only through a query with a definite receipt, and open receipts are resolved events plus what is still open |
| KernelTheorems.FailuresAreBounded | src/jev_loop/core/loop.py:579-585 | Excluded keys were attempted on the current revision; over a run at most max(1, max_guard_escalations) REPEAT or NO_PROGRESS guards and max(1, max_verifications) unsatisfied verdicts |
| KernelTheorems.CyclesSuspend | src/jev_loop/core/loop.py:235-243 | A CYCLE guard is followed by a suspension and by nothing else; only a REPEAT guard can end a run as cycle_detected |
| KernelTheorems.PolicyIsRationed | src/jev_loop/core/guards.py:35-48 | Over a whole run, resumes included, the policy is asked about one frame content at most max(0, max_frame_visits - 1) times |
| KernelTheorems.PolicyCallsAreBounded | src/jev_loop/core/loop.py:235-264 | Over a whole run policy calls are at most that ration times the number of distinct frames |
| KernelTheorems.StepAdvances | src/jev_loop/core/loop.py:170-264 | A step that leaves the run RUNNING has asked the policy exactly once and used exactly one step number |
| KernelTheorems.RunStopsByItself | src/jev_loop/core/loop.py:148-151 | Without any step or time budget, one run() over finitely many frames F makes at most (max_frame_visits - 1) * F + 1 steps |
| KernelTheorems.StepBudgetStops | src/jev_loop/core/loop.py:178-182 | On a run that is not finished, suspended or not, the step past max_steps records RUN_FINISHED(failed, max_steps) and nothing else |
| KernelTheorems.OnlyTheBudgetStops | src/jev_loop/core/loop.py:178-182 | Over every history, a RUN_FINISHED(failed, max_steps) stands at a step whose successor would be past the limit; no other branch gives that reason |
| KernelTheorems.RunStopsByBudget | src/jev_loop/core/loop.py:148-182 | With max_steps > 0, one run() makes at most one step more than the steps that are left |
| KernelRuns.HistoryKeepsInv | src/jev_loop/core/loop.py:133-400 | Every state that any sequence of step, resume and cancel calls can reach satisfies all kernel invariants |
| KernelRuns.MoveKeepsInv | src/jev_loop/core/loop.py:170-400 | Each single event of a step keeps all kernel invariants together |
| KernelRuns.PerformKeepsInv | src/jev_loop/core/loop.py:133-151 | Each host call keeps all kernel invariants and ends at rest |
| KernelLaws.StepIsLawful | src/jev_loop/core/loop.py:170-400 | One call of step() in any reachable state: each event it records is the one due after the events before it, judged from the log and the answers of the world alone, and it ends exactly when nothing is due |
| KernelLaws.ReceiptsAreTrue | src/jev_loop/core/loop.py:320-343 | After an intent the receipt is a rejection under the intent id, or the id and status the environment gave; when the execution raised, first the error and then a receipt of an unknown outcome |
| KernelLaws.CrashLeavesItOpen | src/jev_loop/core/loop.py:320-361 | A crashed execution ends the step with that receipt and its record, and leaves exactly that operation open |
| KernelLaws.RunsTellTheTruth | src/jev_loop/core/loop.py:298-490 | Over every history: after each intent its receipt stands, or the execution error and then a receipt of an unknown outcome; blocked is followed by a suspension for the policy, wait by one for a result, a finish request by its verdict |
| KernelLaws.TimeBudgetStops | src/jev_loop/core/loop.py:178-182 | Past max_seconds, within the step limit, a step of a run that is not finished records RUN_FINISHED(failed, budget_exhausted) and nothing else |
| KernelLaws.CancelEndsTheRun | src/jev_loop/core/loop.py:133-137 | Cancelling a run that is not finished records it once, and no later call of any kind does anything more |
| KernelLaws.ResumeReopens | src/jev_loop/core/loop.py:139-146 | Resuming a run that is not finished records the input, then the update if there is one; the run is up again, with what was open still open |
| KernelInvariants.MoveKeepsFinality | src/jev_loop/core/loop.py:174-182 | Nothing is recorded after a terminal event, by any stage of a step |
| KernelInvariants.MoveKeepsEvidence | src/jev_loop/core/loop.py:539-541 | Success and a satisfied verification stay adjacent through every stage |
| KernelWorld.MoveKeepsBound | src/jev_loop/core/loop.py:193-318 | What a step has observed stays what its frame, validation and execution are bound to |
| KernelWorld.MoveKeepsExcluded | src/jev_loop/core/reduce.py:62-98 | Keys stay excluded only for attempts on the current revision |
| KernelWorld.MoveKeepsUnrepeated | src/jev_loop/core/loop.py:290-318 | One more stage of a step never repeats an execution |
| KernelWorld.ActingMoves | src/jev_loop/core/loop.py:266-343 | An intent is recorded only for the very candidate the decision named, in the current frame, not refused and not attempted on this revision |
| KernelLedger.MoveKeepsSettled | src/jev_loop/core/reduce.py:107-141 | The balance of opened and resolved operations is kept by every stage |
| KernelLedger.MoveKeepsRationed | src/jev_loop/core/reduce.py:89-93 | Visits of a frame content stay ahead of the policy calls about it |
| KernelLedger.MoveKeepsGuardsBounded | src/jev_loop/core/loop.py:579-585 | The bound on guard failures is kept by every stage |
| KernelLedger.MoveKeepsVerdictsBounded | src/jev_loop/core/loop.py:542-545 | The bound on unsatisfied verdicts is kept by every stage |
| KernelTrace.MoveKeepsMinting | src/jev_loop/core/loop.py:550-552 | A new operation id differs from all ids minted before |
| KernelTrace.MoveKeepsPaired | src/jev_loop/core/loop.py:298-343 | Intents and receipts stay paired |
| KernelTrace.MoveKeepsVersioned | src/jev_loop/core/frame.py:119-128 | Frame ids of one run are never reused, because the state version they carry strictly grows |
| KernelTrace.MoveKeepsNamed | src/jev_loop/core/loop.py:235-243 | What a guard leads to stays as CyclesSuspend says |
| KernelTrace.MoveKeepsJustified | src/jev_loop/core/loop.py:193-318 | Every recorded intent keeps the events that justify it, the decision that names its key included |
| KernelMachine.NextDescends | src/jev_loop/core/loop.py:170-400 | Every stage strictly descends, so one step always ends |
| KernelReduce.ReplayLog | src/jev_loop/core/reduce.py:193-197 | The loop over the events is the left fold of the reducer |
| KernelSummary.StateSummarizesTheLog | src/jev_loop/core/reduce.py:43-190 | Folding any log gives the state that the log describes by where its events stand: counters, lists, the step as the largest one, last observation and whether a later look failed, keys dead by a guard with no turn of the revision since, status and reason by the last event that sets them, one attempt for each receipt or resolution with the revision seen before it, and the open operations as the receipts that nothing has resolved, in the order they opened; run id and start time are those given |
| KernelSummary.VisitsAreCounted | src/jev_loop/core/reduce.py:89-93 | The visits of a frame content are the frames built with it |
| KernelSummary.TaskIsWhatTheUpdatesSay | src/jev_loop/core/reduce.py:52-60 | The task is what its updates say: the last one to name a goal, an input or a non-empty list decides it |
| KernelSummary.FingerprintIsTheContent | src/jev_loop/core/frame.py:102-113 | Frames share a fingerprint exactly when revision, goal, inputs and exclusions agree and the offered options agree one by one in everything but idempotency and basis; history and version do not enter |
| KernelSummary.ReturningSituationIsRecognized | src/jev_loop/core/frame.py:86-113 | However many decisions, receipts, verdicts, frames and resumes lie between, an unchanged task, revision and set of exclusions that offers the same candidates again has the fingerprint it had |
| KernelGuards.FrameOffers | src/jev_loop/core/frame.py:77-83 | A frame offers only candidates of the current offer, none excluded and none with an open operation, under the id of its position |
| KernelGuards.FrameIs | src/jev_loop/core/frame.py:64-128 | A frame is refused exactly when options and controls, or its text, exceed the budget; otherwise it holds what can be chosen, the configured controls, and the id and fingerprint of that content |
| KernelGuards.Offerable | src/jev_loop/core/frame.py:78-83 | The filter keeps exactly the candidates that are neither unresolved nor excluded |
| KernelGuards.OfferableSplits | src/jev_loop/core/frame.py:78-83 | The filter keeps order and repetitions: the offer of a list is put together from the offers of its parts, and one candidate is kept as it is or dropped |
| KernelGuards.Combine | src/jev_loop/core/guards.py:90-96 | The worse kind of the two by severity; quiet exactly when both are quiet, otherwise with the exclusions of both and escalating when either does |
| KernelLoop.Loop.constructor | src/jev_loop/core/loop.py:94-121 | A new loop on an empty store stands where the machine starts, with RUN_STARTED recorded |
| KernelLoop.Loop.Emit | src/jev_loop/core/loop.py:598-609 | One event is numbered, appended and folded into the state, and nothing else changes |
| KernelLoop.Loop.Cancel | src/jev_loop/core/loop.py:133-137 | Cancelling does what the machine says: RUN_FINISHED(cancelled) once, and nothing on a finished run |
| KernelLoop.Loop.Resume | src/jev_loop/core/loop.py:139-146 | Resuming does what the machine says, nothing on a finished run |
| KernelLoop.Loop.ResolveOperations | src/jev_loop/core/loop.py:404-422 | The query loop takes exactly the moves of the machine, one for each operation open at its start |
| KernelLoop.Loop.Step | src/jev_loop/core/loop.py:170-191 | One call of step() leaves the object where one drive of the machine leaves it |
| KernelLoop.Loop.Observe | src/jev_loop/core/loop.py:193-215 | Observing and offering take the moves of the machine |
| KernelLoop.Loop.Offer | src/jev_loop/core/loop.py:217-233 | Building a frame takes the moves of the machine, its budget error included |
| KernelLoop.Loop.AssessAndDecide | src/jev_loop/core/loop.py:234-264 | Assessing and deciding take the moves of the machine |
| KernelLoop.Loop.Validate | src/jev_loop/core/loop.py:266-318 | Validation and the intent take the moves of the machine |
| KernelLoop.Loop.HandleControl | src/jev_loop/core/loop.py:424-490 | The four controls take the moves of the machine |
| KernelLoop.Loop.Verify | src/jev_loop/core/loop.py:511-546 | Verification takes the moves of the machine |
| KernelLoop.Loop.Execute | src/jev_loop/core/loop.py:320-343 | Execution and its receipt take the moves of the machine, a crash included |
| KernelLoop.Loop.LookAgain | src/jev_loop/core/loop.py:345-361 | The second look takes the moves of the machine, and only after a mutating action with nothing open |
| KernelLoop.Loop.Account | src/jev_loop/core/loop.py:345-400 | Accounting for the effect takes the moves of the machine |
| KernelLoop.Loop.Conclude | src/jev_loop/core/loop.py:378-400 | The step record and the escalation take the moves of the machine |
| KernelLoop.Loop.GuardFailure | src/jev_loop/core/loop.py:579-585 | A guard escalation ends the run only when the limit is reached |
| KernelLoop.Loop.Suspend | src/jev_loop/core/loop.py:576-577 | A suspension ends the step at rest |
| KernelLoop.Loop.Finish | src/jev_loop/core/loop.py:587-596 | A failure ends the step at rest |
| KernelLoop.Loop.Run | src/jev_loop/core/loop.py:148-151 | run() is the schedule the termination theorems speak of, and stops only when the run is no longer RUNNING |
| Codec.OptionsRoundTrip | src/jev_loop/policies/jev.py:100-167 | Each key of the request parses back to exactly the option it was shown for; every other string is refused, with the right reason |
| Codec.OnlyOptionsAreParsed | src/jev_loop/policies/jev.py:126-167 | No response of any shape is read as anything but an option that was asked about |
| Codec.ResponseIsRead | src/jev_loop/policies/jev.py:126-167 | A response is parsed exactly when it chooses a key that was asked about, and then means that option; otherwise the first thing that is missing is named |
| Codec.BuiltFramesAreUnambiguous | src/jev_loop/core/frame.py:77-83 | In every frame the kernel builds, candidate ids are distinct and never the name of a control |
| KernelGuards.DigitsInjective | src/jev_loop/core/frame.py:77 | Two positions never get the same decimal id |
| Codec.BuildRequest | src/jev_loop/policies/jev.py:100-123 | The two loops build the criteria of the frame, and an empty frame is an error |
| Codec.AnswersAreNeverMalformed | src/jev_loop/core/loop.py:266-288 | A decision parsed from an answer to its frame is never stale, malformed, out of frame or an unoffered control; a candidate can be refused only for authorization, revision, staleness or a veto |
| Codec.CodecPolicyIsHeard | src/jev_loop/core/loop.py:245-288 | In the log of the whole step: the frame built, the decision parsed from the answer, and then for a control the step record of just that control, for a candidate a rejection exactly when authorization, revision, staleness or a veto refuses it |
| HostReduce.ReplaceJobLoop | src/jev_loop/host/reduce.py:11-22 | Replacing a job changes that job only, and an unknown id is an error |
| HostReduce.ReplayLoop | src/jev_loop/host/reduce.py:172-182 | The replay loop is the fold of the partial reducer with sequence numbers 1, 2, ...; the first rejected event decides |
| HostReduce.FoldPrefix | src/jev_loop/host/reduce.py:172-182 | Every prefix of a journal that replays, replays, and its events are numbered by position |
| HostLifecycle.ReplayIsLawful | src/jev_loop/host/reduce.py:25-169 | Every accepted journal: a deadline is heartbeat plus lease, config_version is 1 plus the updates, one RUN_FINISHED exactly when terminal, released exactly when it had no keys or was released, job ids distinct, a job is pending exactly at version 1 and otherwise at 2 |
| HostLifecycle.RequestsAreConserved | src/jev_loop/host/reduce.py:85-137 | Requests are pending plus completed plus cancelled plus expired jobs |
| HostLifecycle.HistoryOnlyMovesForward | src/jev_loop/host/reduce.py:25-169 | Between any two states of one journal the status rank never drops, a terminal status and output are final, a settled job is frozen, no job is lost, and released resources stay released |
| HostLifecycle.ReplaceCounts | src/jev_loop/host/reduce.py:11-22 | Replacing one job moves one job between the status counts |
| HostAcceptance.AcceptedExactly | src/jev_loop/host/reduce.py:25-169 | In every state: only RUN_CREATED makes a state, and of the other events only a start of a run that is not starting, an end that is not terminal or comes twice, a request under a taken id and a settlement of a job that is not pending are rejected |
| HostAcceptance.RejectedFor | src/jev_loop/host/reduce.py:25-169 | Each rejection carries the one reason that belongs to it |
| HostAcceptance.HeartbeatRenews | src/jev_loop/host/reduce.py:72-76 | A heartbeat is accepted in every status and renews the lease of a run that has one |
| HostAcceptance.JournalGrowsExactly | src/jev_loop/host/reduce.py:172-182 | A journal grows by an event exactly when it carries the next number and is welcome in the replayed state |
| HostJobs.JobsAreWhatTheEventsSay | src/jev_loop/host/reduce.py:85-137 | In every journal that replays: one job for each request, in their order, with everything the request said, and changed only as the one event that settled it says |
| HostSummary.StateSummarizesTheJournal | src/jev_loop/host/reduce.py:25-169 | The state is what the journal says by where its events stand: first and last time, last snapshot, error and pid, time of the last sign of life; finished as its RUN_FINISHED says, else stopping with the last stop request, else running once its worker started |
| HostSummary.TaskIsWhatThePatchesSay | src/jev_loop/host/reduce.py:81-83 | Each task key has the value of the last patch that names it, or of the creation |
| HostJournal.LoadEvents | src/jev_loop/host/store.py:114-132 | The loop over the lines: blank lines are skipped, a bad last line without newline is dropped, any other bad line is an error |
| HostLines.LinesAre | src/jev_loop/host/store.py:118 | Cutting a text into lines loses and adds nothing, and each piece ends at its first line end, a return taking the newline behind it along |
| HostLines.UniversalKeepsLines | src/jev_loop/host/store.py:117-118 | Reading in text mode keeps the lines: each is the raw one with its return, or return and newline, written as a newline |
| HostJournal.JournalReadsBack | src/jev_loop/host/store.py:83-84 | The text of a journal reads back exactly when no record holds a character at which splitlines cuts (U+0085, U+2028 and U+2029 are written unescaped) |
| HostJournal.FileReadsBack | src/jev_loop/host/store.py:114-132 | The same for the bytes in the file, through UTF-8 and universal newlines |
| HostJournal.TornJournalRecovers | src/jev_loop/host/store.py:126-130 | For every character prefix of a clean journal, loading gives exactly the events whose record lies wholly inside |
| HostJournal.WholeIsLargest | src/jev_loop/host/store.py:126-130 | What lies wholly inside: record m is loaded exactly when the text up to it, its newline aside, fits into the prefix |
| HostJournal.TornFileRecovers | src/jev_loop/host/store.py:117-130 | For every byte prefix of the file: recovered as above when it ends between two characters, unreadable when it ends inside one |
| HostJournal.BadRecordIsAnError | src/jev_loop/host/store.py:125-131 | A non-blank line that does not decode and ends in a newline is an error wherever it stands |
| HostJournal.AppendAfterTear | src/jev_loop/host/store.py:83-86 | After a torn tail an append keeps the journal loadable exactly when the file was empty or ended in a newline |
| HostJournal.LoadAfter | src/jev_loop/host/store.py:114-132 | Loading a text after one that ends in a newline continues where that left off |
| TextEncoding.DecodePrefix | src/jev_loop/host/store.py:117 | A byte prefix of UTF-8 text decodes exactly when it ends between two characters, and then to those characters |
| HostStore.ManagedRecorder.constructor | src/jev_loop/host/store.py:41-48 | A recorder takes the given state and the present size of the journal |
| HostStore.ManagedRecorder.Open | src/jev_loop/host/store.py:41-53 | Opening replays the file, or fails as the loader or the reducer does; the size is taken afterwards, when others may have appended |
| HostStore.ManagedRecorder.SynchronizeFromDisk | src/jev_loop/host/store.py:105-111 | The cache is reloaded only when the size differs; a failure leaves it alone |
| HostStore.ManagedRecorder.Emit | src/jev_loop/host/store.py:62-92 | One emission: file, cache, status file and answer are what the step system says; a rejected or unwritable event leaves the file and the status alone; when only the status file cannot be written, the event stays and the recorder has moved on |
| HostStore.ManagedRecorder.RefreshStatus | src/jev_loop/host/store.py:94-103 | The status file is rewritten from a synchronized state, or the failure is reported, a failed write included |
| HostStore.SizeIdentifies | src/jev_loop/host/store.py:105-108 | A journal of the size a recorder knows is the journal it knows |
| HostStore.EmitIsLinear | src/jev_loop/host/store.py:62-92 | However stale its cache, a recorder accepts an event exactly when the reducer accepts it on the whole journal and it can be written, and then caches the replay of the longer journal; otherwise the reason is the reducer's own |
| HostStore.EveryInterleavingIsSound | src/jev_loop/host/store.py:41-111 | Under every interleaving of any number of recorders, crashes and failed status writes after an append included, in which nothing is appended between the two halves of an open: the file is the journal of what was appended, it replays with 1..n, every cache and the status file are the replay of a prefix |
| HostStore.EmitIsCurrent | src/jev_loop/host/store.py:74-90 | After a successful emit, cache and status are the replay of the whole journal; a rejected event changes neither file nor status |
| HostStore.DirtyRecordBreaksTheJournal | src/jev_loop/host/store.py:83-84 | An accepted record makes the journal unreadable exactly when it holds a line-breaking character |
| HostStore.AttachIsSound | src/jev_loop/host/store.py:41-53 | A recorder that is opened is sound exactly when the file still has the size it had when its events were read |
| HostStore.LateAttachBreaksTheJournal | src/jev_loop/host/store.py:50-90 | A recorder opened over a missed append accepts what the reducer accepts on its old state; the journal then loads, and replays exactly when nothing was missed |
| HostTear.EmitAfterTear | src/jev_loop/host/store.py:62-92 | After an append that was cut short at any character, and however stale the recorder: an event is accepted exactly when the reducer accepts it on what is still read and it can be written, it is put behind the tail, and the journal loads afterwards exactly when the tear took nothing or everything of the last record |
| HostTear.NobodyEmitsAfterACutCharacter | src/jev_loop/host/store.py:105-118 | After a cut inside a character every emission of every recorder fails and changes nothing |
| HostExample.ExampleIsGood | src/jev_loop/host/store.py:83-84 | The laws that the project assumes of the JSON text can be met by records that hold whatever goal the caller gave, U+2028 included |
| HostExample.StartNeedsACleanGoal | src/jev_loop/host/service.py:207-224 | For every goal: RUN_CREATED is accepted and written, and the journal can be opened exactly when no character of the goal cuts lines |
| HostExample.UpdateNeedsACleanGoal | src/jev_loop/host/service.py:654-667 | For every new goal given to a run that is up: TASK_UPDATED is accepted and written, and the journal still loads exactly when no character of it cuts lines |
| HostExample.AGoalCanBreakTheJournal | src/jev_loop/host/service.py:147-224 | A goal of printable text, not blank, with U+2028 in it: the run is created, and its journal can not be opened |
| HostBroker.CognitionDecides | src/jev_loop/host/reduce.py:85-137 | Whether a cognition event is accepted, and its effect, depends on the job list alone |
| HostBroker.Recorder.Emit | src/jev_loop/host/runtime.py:104-115 | A cognition event is judged on the job list, whatever other writers appended in between |
| HostSharing.EmissionIsShared | src/jev_loop/host/runtime.py:104-115 | On a sound journal to which any other writers appended, an emission of a store recorder with a stale cache is accepted exactly when the broker's recorder accepts it and it can be written, and leaves the state the broker sees |
| HostSharing.StatusIsHonest | src/jev_loop/host/store.py:89-111 | Under every interleaving, a status file read at any time shows, at any later time, the replay of a prefix of the journal: what acquiring claims relies on |
| HostBroker.CognitionBroker.Request | src/jev_loop/host/runtime.py:68-117 | A request has, on the shared job list and for any other writers in between, the effect that RequestIsRecorded describes |
| HostBroker.CognitionBroker.Complete | src/jev_loop/host/runtime.py:135-180 | A completion has the effect that CompletionIsRecorded describes, for any other writers in between; the reducer never rejects it |
| HostBroker.CognitionBroker.ExpireDue | src/jev_loop/host/runtime.py:182-196 | Exactly the due jobs are settled, in order, none rejected by the reducer, for any other writers between the emissions |
| HostBroker.CognitionBroker.CancelPending | src/jev_loop/host/runtime.py:198-205 | Exactly the pending jobs are withdrawn, none rejected by the reducer |
| HostBroker.RequestIsRecorded | src/jev_loop/host/runtime.py:89-117 | An accepted request names a pending twin and changes nothing, or appends one pending job with all the caller asked for |
| HostAnswers.RequestIsAnswered | src/jev_loop/host/runtime.py:68-115 | A request is granted exactly when no test fails; otherwise it is refused for the first test that does: blank or long question, deadline outside 1 to 3600, long dedupe key, bad resource keys, sizes, eight pending jobs, a taken id |
| HostAnswers.GrantedRequestIs | src/jev_loop/host/runtime.py:89-117 | It then names the first pending job with its dedupe key and changes nothing, or appends one job with exactly what was asked |
| HostAnswers.ReplyIsAnswered | src/jev_loop/host/runtime.py:135-180 | Which reply gets which answer, and what it does to every job: completed, settled as overdue when late, or nothing at all |
| HostAnswers.ExpiryWrites | src/jev_loop/host/runtime.py:182-196 | Expiry writes its reason over each job that is pending and past its deadline, and nothing over the others |
| HostAnswers.ExpiryReports | src/jev_loop/host/runtime.py:182-196 | The ids it reports are those jobs, in the order of the list |
| HostAnswers.WithdrawalWrites | src/jev_loop/host/runtime.py:198-205 | Cancelling writes the reason over every pending job and nothing over the others |
| HostBroker.CompletionIsRecorded | src/jev_loop/host/runtime.py:143-180 | A result is accepted exactly for a pending job, at its version, in time, within size and in shape; then that job alone is completed with it |
| HostBroker.OnlyDueJobsExpire | src/jev_loop/host/runtime.py:182-196 | A job expires exactly when it is pending and past its deadline, and the ids reported are those |
| HostBroker.BrokerKeepsTheLimits | src/jev_loop/host/runtime.py:68-205 | After any calls job ids are distinct, versions are lawful and at most eight jobs are pending |
| HostBroker.OnlyCollisionsAreRejected | src/jev_loop/host/runtime.py:95-115 | The reducer turns a request away only for a job id that is taken |
| HostBroker.RequestKeepsOnePerKey | src/jev_loop/host/runtime.py:91-99 | A request keeps one pending job per dedupe key exactly when its context does not hold a key that is pending, or it is refused: too large, too many pending, or a job id that is taken |
| HostBroker.OnePendingJobPerKey | src/jev_loop/host/runtime.py:91-99 | Callers that leave dedupe_key out of the context never see two pending jobs for a key |
| HostBroker.CallersCanDuplicateKeys | src/jev_loop/host/runtime.py:89-99 | A caller that writes the key into the context twice gets two pending jobs |
| HostBroker.JobsAreResolvedOnce | src/jev_loop/host/reduce.py:101-137 | In every journal that replays a job is resolved once if it is settled and never otherwise |
| HostClaims.ClaimDirectory.Acquire | src/jev_loop/host/service.py:929-955 | The two loops under the claim lock have the effect that AcquireIsAllOrNone describes |
| HostClaims.ClaimDirectory.Release | src/jev_loop/host/service.py:958-969 | The loop removes the claims of that run on those keys and no others |
| HostClaims.AcquireIsAllOrNone | src/jev_loop/host/service.py:929-955 | Acquire writes a claim for every key or for none, touches no other key, and removes only claims of runs seen released |
| HostClaims.AcquireIsAnswered | src/jev_loop/host/service.py:929-955 | Acquire succeeds exactly when each key, where it first occurs, is unclaimed or under a readable claim whose run is seen released; otherwise the conflict names the first key for which that fails, and why |
| HostClaims.SeenReleasedIsReleased | src/jev_loop/host/service.py:941-950 | A status that says released, however old, is right about the journal |
| HostClaims.TakeKeepsGuards | src/jev_loop/host/service.py:929-969 | Every start, crash, withdrawal, journal event and release keeps: a run that holds a key has the claim on it |
| HostClaims.KeysExclude | src/jev_loop/host/service.py:929-969 | Under every interleaving, with any claims there before and status files lagging arbitrarily, two runs never hold the same key |
| HostClaims.GuardsExclude | src/jev_loop/host/service.py:929-969 | From any state in which holders have their claims, no continuation lets two runs hold one key |
| HostClaims.ReleaseIsSafe | src/jev_loop/host/service.py:274-291 | After the claims of a run are released, two runs never hold one key in any continuation, exactly when the start of that run was given up, it had no keys, or it has released its resources |
| HostClaims.EarlyReleaseLosesExclusion | src/jev_loop/host/service.py:274-291 | When the claims of a run that still holds a key are released, the next start takes that key, and both hold it |
| ScanWalk.ScanState.ReadBounded | src/jev_loop/bundles/validate.py:531-558 | The read loop charges every chunk as it is read, never overdraws the budget, and hands back what was delivered up to the limit |
| ScanWalk.ScanState.CollectFile | src/jev_loop/bundles/validate.py:722-781 | Collecting a file follows every branch; the last mid-file branch is unreachable |
| ScanWalk.ScanState.Descend | src/jev_loop/bundles/validate.py:695-719 | Descending follows every branch, an escaping error included |
| ScanWalk.ScanState.WalkDirectory | src/jev_loop/bundles/validate.py:639-692 | The directory loop is the walk, with its two ways of stopping early |
| ScanWalk.ScanState.Fail | src/jev_loop/bundles/validate.py:572-574 | A failure is recorded and marks the scan incomplete |
| ScanWalk.ScanState.Halt | src/jev_loop/bundles/validate.py:576-579 | A halt marks the scan incomplete and stops it |
| ScanWalk.ScanBundleFiles | src/jev_loop/bundles/validate.py:582-636 | The whole scan, from the pinned root to the sorted result |
| ScanBudgets.BudgetsHold | src/jev_loop/bundles/validate.py:531-781 | Against any file system: bytes read plus budget is 4 MiB, budget is never negative, kept bytes were read, at most 4001 entries and 400 whole files of at most 512 KiB, any stop or failure makes the scan incomplete |
| ScanCoverage.CompleteMeansCovered | src/jev_loop/bundles/validate.py:582-609 | Against any file system, a complete scan met every listed entry: pruned, a link listed as one, a covered directory, or a regular file read whole in one identity, and the files are exactly those |
| ScanReports.ScanReportsTruly | src/jev_loop/bundles/validate.py:560-781 | Against any file system: every failure names an entry that went wrong in just that way, an entry that is bound to fail is named unless the walk was stopped, a stop gives the limit that was met or the place where the walk could not go on, and without one the links are counted |
| ScanReports.ReadIs | src/jev_loop/bundles/validate.py:531-558 | What is read of a file: chunk after chunk of at most 64 KiB until one is empty, one raises or the limit is reached; it fails exactly when one raises before |
| ScanRefinement.CompleteIffScannable | src/jev_loop/bundles/validate.py:582-781 | On a static tree a scan is complete exactly when the tree is within the limits; then it holds the simple listing, all entries and all links |
| ScanRefinement.FitMeans | src/jev_loop/bundles/validate.py:729-738 | The running limits on files and bytes, spelled out: before every file some budget must be left |
| ScanRefinement.BelowTheBudgetIsEnough | src/jev_loop/bundles/validate.py:56-60 | Strictly fewer than 4 MiB, within the other limits, always scans complete |
| ScanBoundary.FileAtTheEnd | src/jev_loop/bundles/validate.py:722-738 | A file listed after a tree within the limits can be taken exactly when it is small enough, fits into what is left, and something is left |
| ScanBoundary.OrderDecides | src/jev_loop/bundles/validate.py:722-738 | On a tree of exactly 4 MiB with room for one more entry, an empty file listed first leaves the scan complete and listed last makes it incomplete |
| ScanBoundary.FullTree | src/jev_loop/bundles/validate.py:56-60 | Such a tree exists: eight files of 512 KiB |
| ScanListing.CompleteScanIsTheListing | src/jev_loop/bundles/validate.py:582-636 | A complete scan of a static tree returns, in ascending path order, exactly the regular files reachable through unpruned, non-link names, each once with its full content |
| ScanListing.ListingIsReachable | src/jev_loop/bundles/validate.py:639-692 | The listing of the walk is what looking paths up in the tree finds |
| ScanListing.ListingHasNoTwins | src/jev_loop/bundles/validate.py:639-692 | No path is listed twice |
| ScanListing.SortAscends | src/jev_loop/bundles/validate.py:627 | Sorting by path gives strictly ascending paths and the same files |
| ScanListing.CompleteScansAgree | src/jev_loop/bundles/validate.py:582-636 | Two complete scans of trees with the same files agree, whatever the order of the directories and the cut of the reads |
| ScanFingerprint.FingerprintLoop | src/jev_loop/bundles/validate.py:791-805 | The hash is fed path, NUL and inner digest of every file in order; an incomplete scan has no fingerprint |
| ScanFingerprint.FramingIsUnique | src/jev_loop/bundles/validate.py:800-804 | Equal streams mean equal paths and contents, for NUL-free paths and a fixed-length digest that does not collide on these files |
| ScanFingerprint.FingerprintsAgree | src/jev_loop/bundles/validate.py:791-805 | Two complete scans have the same fingerprint exactly when the trees hold the same files |
| SchemaConformance.StrictAccepts | src/jev_loop/schema.py:239-299 | The strict check accepts exactly: a definition that is well-formed at every path, and a value of at most 64 levels with finite numbers that conforms to it keyword by keyword |
| SchemaConformance.StrictIsConformance | src/jev_loop/schema.py:245-299 | For an accepted definition and a finite, bounded value the check decides conformance |
| SchemaDefinitions.DefinitionIs | src/jev_loop/schema.py:176-236 | A definition is accepted exactly when every schema inside stands at most 16 levels deep and holds only the thirteen keywords, each in its form, with bounds that leave some length, some count and some number |
| SchemaDefinitions.BoundedIs | src/jev_loop/schema.py:396-427 | The walk over a value finds exactly what its paths say: at most 64 levels and finite numbers |
| SchemaEquality.JsonEqualIsSameForm | src/jev_loop/schema.py:371-393 | JSON equality is having the same canonical form, with 1 and 1.0 the same number and no NaN |
| SchemaEquality.HostEqualIsSameForm | src/jev_loop/schema.py:371-393 | Host equality is having the same canonical form when booleans count as 0 and 1 |
| SchemaLegacy.LegacyIsConformance | src/jev_loop/schema.py:73-140 | On an accepted definition the legacy check decides conformance keyword by keyword: host equality, and numbers against the floats that the bounds become |
| SchemaLegacy.DefaultsAccept | src/jev_loop/schema.py:302-338 | Declared defaults are accepted exactly when the definition is, the value is finite, its type is admitted, and every field conforms to its own schema or may be there without one |
| SchemaTheorems.DefinitionMakesValueTotal | src/jev_loop/schema.py:176-236 | An accepted definition makes the check of every value total: no lookup and no comparison can fail |
| SchemaTheorems.StrictDecides | src/jev_loop/schema.py:239-338 | The strict check and the check of defaults always accept or reject |
| SchemaTheorems.EqualReflexive | src/jev_loop/schema.py:371-393 | JSON equality is reflexive on finite values |
| SchemaTheorems.EqualSymmetric | src/jev_loop/schema.py:371-393 | JSON equality is symmetric |
| SchemaTheorems.EqualTransitive | src/jev_loop/schema.py:371-393 | JSON equality is transitive |
| SchemaTheorems.EqualIsHostEqual | src/jev_loop/schema.py:371-393 | What is equal as JSON is equal in the host language |
| SchemaTheorems.HostEqualIsEqual | src/jev_loop/schema.py:371-393 | The two differ exactly where a boolean faces something that is not one |
| SchemaTheorems.StrictIsDefaultsAndWhole | src/jev_loop/schema.py:302-338 | For an object the strict check is the check of defaults plus required keys and root enum and const |
| SchemaTheorems.MergeTheorem | src/jev_loop/host/service.py:864-869 | The merged config is accepted exactly when the overrides and the defaults not overridden pass the check of defaults, every required key is in one of the two, and a root enum or const admits the merge |
| SchemaTheorems.CheckedDefaultsStayGood | src/jev_loop/host/service.py:864-869 | When the defaults passed the static check, only the overrides and the required keys are left to check |
| SchemaTheorems.LegacyIffSurvives | src/jev_loop/schema.py:73-140 | What the strict profile accepts, the legacy one accepts exactly when every number in it that meets an integer minimum or maximum, through properties and items, is on the right side of the float that bound becomes |
| SchemaTheorems.StrictRefinesLegacy | src/jev_loop/schema.py:73-140 | So the legacy profile accepts everything the strict one accepts when integer bounds convert to floats exactly or outward |
| SchemaTheorems.LoneMinimumRefines | src/jev_loop/schema.py:135-138 | For a definition that is a lone integer minimum it does so for all values exactly when the float is not above the bound |
| SchemaTheorems.LoneMaximumRefines | src/jev_loop/schema.py:138-140 | For a lone integer maximum exactly when the float is not below the bound |

## Left out

- Parameters: hash functions are arbitrary functions, assumed not to collide only where a lemma says so, and only on the values at hand; JSON text is a codec with the laws of `HostJournal.Good`; the length of a frame's JSON text, clock readings, random ids and float rounding are inputs.
- Kernel values: event times, latencies, elapsed milliseconds and free-text details carry no control flow and are not represented.
- KernelLoop.Loop.constructor: starts on an empty store; a store that already holds events is not modelled.
- KernelLoop.Loop.Resume: of a task update the five documented keys and `step` are modelled; an `at` key sets the event's time, and other keys raise or are stored unread.
- KernelLoop.Loop.Step: the returned step and run results, the remembered last frame, exceptions of callbacks that the kernel does not catch, and calls back into the loop from a callback are not part of this model.
- KernelGuards.BuildFrame: the projection of the state that is shown to the model is represented only by its length.
- Codec.BuildRequest: the model name, the instructions, the wording of the four control descriptions and the projected state stand beside the criteria and are left out.
- Codec.ParseResponse: probabilities, confidence, model name and usage of an answer are left out; a malformed `usage` or a huge `confidence` makes the source raise something other than its own shape error.
- HostStore.Allowed: a recorder without a state is made only for an empty journal, as `start_run` does.
- HostStore.RunDirectory: file permissions, fsync and the temporary file behind the status file are not part of this model; an append that fails half-way is the subject of `HostTear`.
- HostJournal.LoadFile: a lone surrogate cannot be encoded and is not a character here.
- HostReduce.Apply: events of the journal have well-typed data, as the emitters write it.
- HostBroker.Recorder.Emit: an emission whose synchronization fails or whose event cannot be written is the subject of `HostStore`; `HostSharing.EmissionIsShared` says when the two recorders do the same.
- HostBroker.CognitionBroker: waking the controller thread (`changed`) and reading back single jobs are left out.
- LoopController and the worker threads around a run: they only reach the modelled parts through the calls modelled here.
- HostClaims.ClaimDirectory.Acquire: atomic at its end, which is sound because claims are only touched under the lock and journals only grow; the digest in a claim's file name is taken to identify the key; run ids are never reused.
- Start, command and worker plumbing of the service: idempotent starts, inbox commands, signals, process liveness and the worker's main loop beyond the events it emits.
- ScanModel.ScanBundle: closing descriptors, the final sort of failure messages and the count in a coverage line; the tree of a static file system is finite and its names are Unicode text.
- SchemaModel.Legacy: on definitions outside the strict subset its verdict may be `Undefined` where the source goes on by host-language conversions.
- SchemaModel.Value: error messages and paths are left out; a mapping has no order, so which of several failing properties is reported is not modelled.
- HTTP transport, credentials, doctor, command line, demo, manifest field checks, discovery and reference resolution: plumbing and long lists of one-branch checks.
