# Durable coordinator and span scheduler: a verified model

This project models the two parts of LLM-proto that carry its hard promises,
in Dafny 4.11, and proves those promises for all inputs, runs and
interleavings. `dafny verify dfyconfig.toml` checks all of it.

## The durable coordinator

Any number of coordinators share one repository. They submit requests, lease
segments to workers, accept relayed checkpoints and final results, retry,
cancel, revoke workers, expire leases and recover requests that a crashed
coordinator left behind. JavaScript runs the code between two `await`s to
completion, so such a stretch is the atomic step; a crash happens at an await
or, where the promise must survive it, between two durable writes.

- `Store` is the durable state and every single durable write; `Steps` gives,
  for each stretch, the writes it issues in order and how it ends. Stage
  changes in the repository are bare compare-and-sets, so `Discipline` says
  what each single write must respect and what then always holds; `StepSafety`
  shows that every step respects it, `Traces` what every disciplined log
  therefore shows, wherever it is cut off.
- `StoreChanges`, `AttemptOutcomes`, `StepOutcomes`, `RecoveryOutcomes` and
  `RunControl` say the same steps a second time, by the records and not by the
  writes: for every answer of every stretch the condition in the stored records
  under which it is given, every field that then has a new value, and where a
  run goes on. The lists of writes of `Steps` are proved to lead exactly there.
- `Runs`, `RunProofs` and `CoordinatorSystem` put steps together: the attempt
  and segment loops with their control points, pushed results, recovery,
  crashes, and torn crashes. `CoordinatorTheorems` states the promises for
  every behaviour: exactly-once completion, legal stage histories, custody of
  every result, cancellation, clean terminal requests, fenced generations,
  retry budget and termination of runs. `RunLiveness` adds that an unfinished
  run can always go on, `RunCompletion` that requests of any number of segments
  can be completed with whatever their last worker answers, from a submission,
  from a recovery, and over a worker that fails. `Boundaries` holds the
  invariant between whole stretches, `Listings` what a stretch looks up.
- `WriteKinds` says which event may issue which kind of write. With it
  `ResultOrigins` traces every stored result, word for word, to the answer of
  the owner of the last segment's lease; `Handovers` traces what an executor
  works with to the checkpoint its dispatch found; `Idempotency` shows that a
  key stands for one request for ever; `RunAborts` that an aborted run assigns
  no worker again.
- `FencedCommit`, `RecoveryPlan`, `RecoveryHandoff`, `RecoveryOwnership`,
  `RecoveryRunner` and `RetryBudget` prove the promises that span an await, a
  recovery, or several owners.
- `InMemoryRepository`, `LeaseManager`, `WorkerRegistry`, `DurableCoordinator`
  and `DurableRecovery` are the classes and procedures as the program has
  them, updating records in place. Each method is proved to issue exactly the
  writes of its step, to return its outcome and to leave the coordinator ready
  for the next call; the repository keeps a ghost log of its writes that
  determines all its records. `CoordinatorRefinement` shows that one call of
  these classes is one whole event of `CoordinatorSystem`, for any number of
  coordinators over one repository, so the theorems hold of its records.
- `DurableObjectKeys`, `PercentEncoding`, `DurableObjectCells`,
  `DurableObjectRepository` and `AdapterRefinement` are the key/value adapter:
  its keys never collide, its prefix listings are exact, its views write single
  fields through. `InMemoryViews` adds to the in-memory repository which record
  object a view holds; driven by the same calls the two repositories give the
  same answers and hold the same records exactly as long as every call is
  harmless in the sense below. `AdapterReplies` says what their answers mean:
  the reads together tell every record, the answer to a write what it did.
  `Tallies` compares listings as multisets.

## The span scheduler and the pipelines

- `SpanRouter`: the backtracking search with its shared set of dead states
  finds a route exactly when any tiling of the suffix fits distinct idle
  workers, because taking a worker's longest span never loses one. The route is
  the best one span by span: each span on a free worker that strands nothing
  and that no such worker outranks by what the ledger says, tier, span, memory
  and identifier.
- `PipelineScenes` describes a call of a worker and what it leaves, while at
  every await others may change the pool and the checkpoint store. `SpanRuns`
  and `SegmentRuns` describe whole runs, attempt by attempt, each attempt with
  the await it started at, the pool it saw and the calls it sent, and prove
  what every run comes to: an answer is the composition of all segment
  functions, starts never fall back, a failure has a fault behind every
  attempt, and a worker whose result was refused gets no later call while it
  stays away. `SpanPipeline` and `SegmentPipeline`, over `WorkerPool` and
  `HiddenStates`, are the classes, proved to run exactly so.
- `ChunkOffers`, `ChunkDispatcher`, `Windows` and `ResidencyLedger`: the
  two-pointer window, the offer in terms of the telemetry and that worse
  telemetry never raises it, a run that gives each chunk to the best-scored
  worker of its moment, and the conservation of artifact bytes.
- `ManifestGeometry`: a manifest raises no topology issue exactly when its
  segments partition the layers. `CheckpointFrame`: the binary frame reads
  back as what was written and is self-delimiting.

## What is assumed

Lease, attempt and request identifiers are fresh; a new worker generation is
one never registered before. A digest is an uninterpreted value; whether a
payload matches its digest is a parameter (`intact`) of the step after the
await, and one manifest digest names one segment count. The clock never runs
back. A listing enumerates what is stored, in any order. Workers are honest in
one sense only: a result that passes validation is what its segments compute
from its input; anything else may be answered. Checkpoints that exist before a
pipeline starts, or that others leave under its request while it waits, are
honest. Loads, rates and scores are real numbers, and the collation order of
identifiers is a ranking by integers.

## Where the code differs from what one may expect

- Two expiry boundaries: at the instant `now == expiresAt` the recovery
  planner treats a lease as abandoned while the lease matcher still accepts
  it. `RecoveryPlan.DecideIsExact` and `FencedCommit.MatchesExactlyTheOwner`
  state one each.
- The in-memory deletion of a request's checkpoints goes by name prefix, so it
  also deletes those of a request whose identifier extends `id:`; the adapter
  escapes the separator and does not. `OwnDeletedIsDelete` says exactly when
  the two agree, `SeparatorsMakeADifference` gives a case where they do not.
- In memory a view of a request or worker writes to the record object it was
  taken from; in the adapter it writes to the latest record under the same key,
  or for a worker the same generation. So a value written through the view of a
  record that was created or put again since differs: `EffectsAgree` gives the
  exact condition, `ReplacedRecordsDiffer` and `RefreshedWorkersDiffer` the
  inputs, and `NeverApartIffHarmless` carries it to any sequence of calls.
- A recovery claim can be lost before its first renewal if and only if its time
  to live is below two milliseconds (`LosesExactlyWhenShort`).
- A recovery runner can come back to its caller with a claim of its owner still
  stored if and only if that owner had left one from before
  (`StopsHoldingExactlyWhenLeft`): it stays where it is when the runner is
  aborted before its first decision, whatever the request, and when the request
  is missing or terminal (`LeftoverSurvives`).
- A crash torn right after a submission bound its key leaves the key naming a
  request that was never created, and the same submission is then answered as
  existing. `DanglesExactlyWhenTorn` shows that nothing else leads there,
  `TornSubmissionsAreLost` gives the behaviour.
- A coordinator that is no longer current may still fail a request, a worker
  may be marked idle while it runs another request, and a lease that was
  issued stays when the following stage claim fails: the steps do what the
  code does there, and no promise says otherwise.

## Model

| member | source | states |
|---|---|---|
| `RequestStages.PathExtends` | LLM-proto/src/request-state-machine.ts:48-62 | a request history that follows the transition table still does after one more edge from its last stage |
| `Discipline.KeepsConsistent` | LLM-proto/src/durable-repository.ts:510-761 | one write that respects the discipline keeps the whole invariant: keyed records, a result stored exactly while the stage is completed, every live lease issued before and unchanged since, cancellations that stand, owned worker generations |
| `Discipline.DisciplinePreserves` | LLM-proto/src/durable-repository.ts:510-761 | any sequence of disciplined writes keeps that invariant, wherever it is cut off |
| `Discipline.MovesAreEdges` | LLM-proto/src/durable-repository.ts:547-556 | the stage compare-and-set and the completion commit, which check no legality themselves, move only along an edge of the table (or recovery's edge) when the discipline holds |
| `Discipline.PrefixIsSafe` | LLM-proto/src/durable-coordinator-core-impl.ts:1082-1147 | a stretch that a crash cuts off between two durable writes is still disciplined |
| `Progress.RunsAdvance` | LLM-proto/src/durable-repository.ts:510-761 | results, terminal stages, cancellations, retired leases and retired generations are never taken back by any disciplined run of writes |
| `StepSafety.SubmitIsSafe` | LLM-proto/src/durable-coordinator-core-impl.ts:296-382 | every write of a submission respects the discipline: an unknown key creates an accepted request that is queued at once |
| `StepSafety.DispatchIsSafe` | LLM-proto/src/durable-coordinator-core-impl.ts:575-668 | every write of a dispatch respects the discipline: a lease only for an open, uncancelled request, its fresh identifier, a stored worker generation and, past segment 0, an unexpired checkpoint of the predecessor under the same manifest |
| `StepSafety.AcceptEntryIsSafe` | LLM-proto/src/durable-coordinator-core-impl.ts:884-985 | every write before the awaited integrity check respects the discipline; a completion is committed only for the owner of the last segment of a running, uncancelled request |
| `StepSafety.AcceptCommitIsSafe` | LLM-proto/src/durable-coordinator-core-impl.ts:985-1037 | every write after the await respects the discipline, whatever happened meanwhile: the checkpoint is stored only for the owner of a running, uncancelled request |
| `StepSafety.RecoverIsSafe` | LLM-proto/src/durable-coordinator-core-impl.ts:722-754 | the failure handler counts a retry by exactly one, moves only running requests to waiting, and otherwise fails the request legally |
| `StepSafety.ContinueIsSafe` | LLM-proto/src/durable-coordinator-core-impl.ts:687-721 | what follows any answer of `acceptResult` respects the discipline |
| `StepSafety.FinalizeIsSafe` | LLM-proto/src/durable-coordinator-core-impl.ts:1340-1357 | finalising moves only along an edge of the table and never into completed |
| `StepSafety.EndRunIsSafe` | LLM-proto/src/durable-coordinator-core-impl.ts:515-542 | closing a run and acknowledging its cancellation respects the discipline |
| `StepSafety.WorkerFailureIsSafe` | LLM-proto/src/durable-coordinator-core-impl.ts:1045-1071 | a pushed failure message respects the discipline |
| `StepSafety.RegisterIsSafe` | LLM-proto/src/durable-coordinator-core-impl.ts:1194-1214 | registering over an old generation stores only a fresh generation or the one already stored |
| `StepSafety.CancelRequestIsSafe` | LLM-proto/src/durable-coordinator-core-impl.ts:1082-1161 | a cancellation is recorded only while neither completed nor failed, keeps its first time, and is acknowledged only for a cancelled request without a lease |
| `StepSafety.CancelStops` | LLM-proto/src/durable-coordinator-core-impl.ts:1101-1147 | cancelling an open request without a lease for the first time leaves it fit to be acknowledged: cancelled, and still without a lease |
| `StepSafety.BeginRecoveryIsSafe` | LLM-proto/src/durable-recovery-command.ts:187-303 | every write of a recovery respects the discipline, including the extra edge from leased back to queued |
| `Boundaries.FinalizeKeepsTidy` | LLM-proto/src/durable-coordinator-core-impl.ts:1340-1357 | after finalising, a terminal request still holds no lease and no checkpoint, and every live lease names a stored generation |
| `Boundaries.IsolateKeepsTidy` | LLM-proto/src/durable-coordinator-core-impl.ts:1359-1365 | isolating revokes the generation and takes back every lease it held, so none is left naming it |
| `Boundaries.DispatchKeepsTidy` | LLM-proto/src/durable-coordinator-core-impl.ts:575-668 | a whole dispatch keeps terminal requests clean and leases fenced |
| `Boundaries.CompleteKeepsTidy` | LLM-proto/src/durable-coordinator-core-impl.ts:906-942 | completing commits the result, gives the lease back and drops the checkpoints in one stretch |
| `Boundaries.AcceptCommitKeepsTidy` | LLM-proto/src/durable-coordinator-core-impl.ts:985-1037 | storing a relayed checkpoint, or isolating over a conflicting one, keeps terminal requests clean and leases fenced |
| `Boundaries.ContinueKeepsTidy` | LLM-proto/src/durable-coordinator-core-impl.ts:687-721 | the continuation after `acceptResult` keeps terminal requests clean and leases fenced |
| `Boundaries.EndRunKeepsTidy` | LLM-proto/src/durable-coordinator-core-impl.ts:515-542 | ending a run keeps terminal requests clean and leases fenced |
| `Boundaries.WorkerFailureKeepsTidy` | LLM-proto/src/durable-coordinator-core-impl.ts:1045-1071 | a failure message keeps terminal requests clean and leases fenced |
| `Boundaries.CancelRequestKeepsTidy` | LLM-proto/src/durable-coordinator-core-impl.ts:1082-1161 | a cancellation keeps terminal requests clean and leases fenced |
| `Boundaries.ReconnectKeepsTidy` | LLM-proto/src/worker-registry.ts:93-116 | a reconnection replaces the generation and takes back every lease of the old one within one stretch |
| `Boundaries.RegisterKeepsTidy` | LLM-proto/src/durable-coordinator-core-impl.ts:1194-1214 | a registration, on the same or another connection, keeps terminal requests clean and leases fenced |
| `Boundaries.BeginRecoveryKeepsTidy` | LLM-proto/src/durable-recovery-command.ts:187-303 | a recovery, closing or resuming, keeps terminal requests clean and leases fenced |
| `Boundaries.ClosePlanEffect` | LLM-proto/src/durable-recovery-command.ts:133-165 | a closing recovery leaves the request terminal, without lease or checkpoints, and the claim released, and touches no other request |
| `Traces.ResultIffCompleted` | LLM-proto/src/durable-repository.ts:688-705 | at every point of every disciplined log a result is stored exactly while the stage is completed |
| `Traces.ResultIsFinal` | LLM-proto/src/durable-repository.ts:688-705 | a stored result is never replaced or removed |
| `Traces.TerminalIsFinal` | LLM-proto/src/durable-coordinator-core-impl.ts:1340-1357 | a terminal stage is never left |
| `Traces.LaterCommitsFail` | LLM-proto/src/durable-repository.ts:688-705 | however many owners race to commit, only the first commit takes effect |
| `Traces.StagesFormAPath` | LLM-proto/src/request-state-machine.ts:48-62 | the stages a request has been in form a path of the transition table, plus recovery's edge, and end at its stage now |
| `Traces.CancellationPreventsCompletion` | LLM-proto/src/durable-coordinator-core-impl.ts:1002-1006 | after a durable cancellation no write completes the request, even if the coordinator crashed before finalising |
| `Traces.CancellationStopsRelays` | LLM-proto/src/durable-coordinator-core-impl.ts:1002-1006 | after a durable cancellation no checkpoint of the request is stored |
| `Traces.AcknowledgedIsStopped` | LLM-proto/src/durable-coordinator-core-impl.ts:1149-1161 | an acknowledged cancellation means cancelled and without a lease, from then on |
| `Traces.ReclaimedStaysReclaimed` | LLM-proto/src/lease-manager.ts:117-123 | a lease that was given back never becomes active again |
| `Traces.RetiredStaysRetired` | LLM-proto/src/worker-registry.ts:198-221 | a worker generation that left the registry never comes back, under any worker |
| `Traces.StoredHasCustody` | LLM-proto/src/durable-coordinator-core-impl.ts:595-668 | behind every stored checkpoint stands, segment by segment, a lease for that segment and a dispatch that picked up the unexpired predecessor of the same request and manifest, and the checkpoint picked up is, byte for byte, the one the lease before relayed |
| `Traces.CompletionHasCustody` | LLM-proto/src/durable-coordinator-core-impl.ts:906-942 | a request completes only under the live lease of its last segment, with that whole chain behind the very checkpoint its dispatch picked up |
| `Traces.ResultWasCommitted` | LLM-proto/src/durable-repository.ts:688-705 | every stored result comes from one commit in the log, unchanged |
| `CoordinatorSystem.NextKeepsInv` | LLM-proto/src/durable-coordinator-core-impl.ts:212-1396 | every atomic stretch of any coordinator, every crash at an await and every crash torn between two writes keeps the system invariant |
| `CoordinatorSystem.BehaviourHolds` | LLM-proto/src/durable-coordinator-core-impl.ts:212-1396 | so the invariant holds in every reachable state |
| `CoordinatorTheorems.ExactlyOnceCompletion` | LLM-proto/src/durable-repository.ts:688-705 | for every interleaving of any number of coordinators: a result exists exactly while the request is completed, it never changes, and terminal stages are never left |
| `CoordinatorTheorems.StagesFollowTheMachine` | LLM-proto/src/request-state-machine.ts:48-62 | for every interleaving: each request's stage history is a path of the transition table plus leased to queued |
| `CoordinatorTheorems.CancellationHolds` | LLM-proto/src/durable-coordinator-core-impl.ts:1082-1161 | for every interleaving and every crash, torn or not: once cancelled durably a request is never completed, and once acknowledged it is cancelled and holds no lease |
| `CoordinatorTheorems.ResultsHaveCustody` | LLM-proto/src/durable-coordinator-core-impl.ts:595-668 | for every interleaving: every result has its whole chain of custody, checkpoint by checkpoint |
| `CoordinatorTheorems.ClosedRequestsHoldNothing` | LLM-proto/src/durable-coordinator-core-impl.ts:1340-1357 | between whole stretches a terminal request has no active lease and no checkpoint |
| `CoordinatorTheorems.LeasesAreFenced` | LLM-proto/src/lease-manager.ts:126-133 | between whole stretches every active lease names the generation its worker has now |
| `CoordinatorTheorems.RetiredGenerationsHoldNothing` | LLM-proto/src/worker-registry.ts:427-436 | a generation that was reconnected over, removed or isolated holds no lease and never will again |
| `CoordinatorTheorems.AttemptsAreBudgeted` | LLM-proto/src/durable-coordinator-core-impl.ts:544-757 | a run retries at most `maxRetries` times and appends at most one attempt for each segment left and each retry |
| `CoordinatorTheorems.FinishedRunsCloseTheirRequest` | LLM-proto/src/durable-coordinator-core-impl.ts:515-542 | a run that ended has its request terminal, unless it stopped for lost recovery ownership |
| `CoordinatorTheorems.RunsEnd` | LLM-proto/src/durable-coordinator-core-impl.ts:515-757 | a run takes at most a fixed number of stretches, whatever every other coordinator does in between; having taken them all it is finished |
| `RunLiveness.UnfinishedRunsCanStep` | LLM-proto/src/durable-coordinator-core-impl.ts:515-757 | and it is never stuck: whatever the executor answered and the check found, an unfinished run has an enabled next stretch |
| `RunLiveness.RunsCanFinish` | LLM-proto/src/durable-coordinator-core-impl.ts:515-757 | so from every state that keeps the invariant a run's own stretches, whatever is answered, bring it to its end |
| `RunCompletion.SegmentPasses` | LLM-proto/src/durable-coordinator-core-impl.ts:544-757 | from any state that keeps the invariant, a run at an open segment with its input, and an idle worker large enough, reaches the next segment by its own stretches, as ready as before |
| `RunCompletion.RunCompletes` | LLM-proto/src/durable-coordinator-core-impl.ts:544-757 | so its own stretches bring the request from any such segment to completed, with exactly the tokens and text the last worker answers, whatever they are, as its stored result |
| `RunCompletion.SubmissionCompletes` | LLM-proto/src/durable-coordinator-core-impl.ts:296-382 | so a new request can be completed wherever an idle worker is large enough for every segment, with whatever its last worker answers |
| `RunCompletion.RequestsCanComplete` | LLM-proto/src/durable-coordinator-core-impl.ts:212-1396 | for every configuration of at least one segment, and every answer, some behaviour from the start completes a request with that answer stored |
| `RunCompletion.RecoveryCompletes` | LLM-proto/src/durable-coordinator-core-impl.ts:449-513 | what a recovery that resumes hands over can be completed by its run's own stretches wherever an idle worker is large enough, as long as the request has no checkpoint of its current segment or a later one |
| `RunCompletion.RunSurvivesFailure` | LLM-proto/src/durable-coordinator-core-impl.ts:722-754 | a run survives a worker that fails: if the code is worth retrying, the durable budget lasts and another idle worker is large enough, the run makes a second attempt, counts one retry and completes its request with what the worker answers then |
| `RunAborts.CancellationsAbortRuns` | LLM-proto/src/durable-coordinator-core-impl.ts:1082-1147 | cancelling a request that is neither completed nor failed aborts every unfinished run of it on that coordinator |
| `RunAborts.AbortsKeepTheirCause` | LLM-proto/src/durable-coordinator-core-impl.ts:449-513 | an abort is for the cause given last, but losing the recovery claim never hides an abort that came before |
| `RunAborts.AbortedRunsWindDown` | LLM-proto/src/durable-coordinator-core-impl.ts:575-590 | in every behaviour an aborted run comes to wait for no other executor: whatever it waits for later it was handed before |
| `RunProofs.StretchBurnsFuel` | LLM-proto/src/durable-coordinator-core-impl.ts:544-757 | each stretch of an unfinished run uses up fuel, whatever it finds in the store |
| `RunProofs.EndRunCloses` | LLM-proto/src/durable-coordinator-core-impl.ts:515-542 | closing a run that did not lose its ownership leaves the request terminal |
| `RunProofs.RecoverCounts` | LLM-proto/src/durable-coordinator-core-impl.ts:722-754 | a failed execution counts one retry exactly when it goes on or throws trying to, and only below the budget |
| `RunProofs.DispatchAppendsOne` | LLM-proto/src/durable-coordinator-core-impl.ts:632-668 | a dispatch appends one attempt exactly when it issues a lease |
| `WriteKinds.EachWriteHasItsEvent` | LLM-proto/src/durable-coordinator-core-impl.ts:296-1147 | every result, checkpoint, lease, attempt, retry, key and request is written by the one kind of event that may write it: a result with an accepted answer only, a checkpoint after the awaited check only, a lease by a dispatch only |
| `RetryBudget.RetriesStayWithinBudget` | LLM-proto/src/durable-coordinator-core-impl.ts:736-748 | over every interleaving, restart and recovery, no durable retry counter passes a limit that bounds every coordinator's `maxRetries` |
| `StoreChanges.FinalizeShuts` | LLM-proto/src/durable-coordinator-core-impl.ts:1340-1357 | closing gives an open request its stage and, if failed, its error code, and takes its lease and checkpoints; an unknown, terminal or merely accepted one is left as it is |
| `StoreChanges.IsolateCasts` | LLM-proto/src/durable-coordinator-core-impl.ts:1359-1365 | isolating forgets the worker of a known generation and takes exactly the leases that name it, and otherwise changes nothing |
| `StoreChanges.UpdateEndsAttempt` | LLM-proto/src/durable-coordinator-core-impl.ts:1383-1396 | closing an attempt gives the first with its identifier its outcome and error and changes no other |
| `StepOutcomes.SubmissionLeaves` | LLM-proto/src/durable-coordinator-core-impl.ts:296-382 | under a bound key the answer is the bound identifier and nothing is written; otherwise the request is queued as configured and the key, if given, is bound to it |
| `AttemptOutcomes.DispatchGivesUp` | LLM-proto/src/durable-coordinator-core-impl.ts:582-591 | no attempt beyond the budget, after an abort, or for a closed or cancelled request, with which answer, and which of them closes the request |
| `AttemptOutcomes.DispatchMissesInput` | LLM-proto/src/durable-coordinator-core-impl.ts:596-625 | without the predecessor checkpoint the request fails with a checkpoint integrity mismatch, and an expired one is dropped |
| `AttemptOutcomes.DispatchFindsNoWorker` | LLM-proto/src/durable-coordinator-core-impl.ts:627-634 | without a worker the run waits while it has an attempt left, and otherwise the request fails as disconnected |
| `AttemptOutcomes.DispatchHandsOver` | LLM-proto/src/durable-coordinator-core-impl.ts:636-685 | with input and worker the lease, the attempt, the running stage and the busy worker are stored field by field, and the executor is handed that lease's identity, the configured manifest and the very checkpoint stored for the segment before; a request that is not queued keeps the lease and throws |
| `AttemptOutcomes.MismatchIsNamed` | LLM-proto/src/lease-manager.ts:144-158 | the reason given for a refused identity is the first field, after absence and expiry, in which it differs from the live lease |
| `AttemptOutcomes.EntryTurnsAway` | LLM-proto/src/durable-coordinator-core-impl.ts:884-904 | who is turned away before the result is looked at, with which answer, and what that leaves |
| `AttemptOutcomes.EntryCompletes` | LLM-proto/src/durable-coordinator-core-impl.ts:905-942 | at the last segment the owner's output completes the running request: tokens and text word for word, stage, lease, attempt and checkpoints; no output, a bad one, a duplicate or another stage each with its own answer and effect |
| `AttemptOutcomes.FinalAnswersAreStored` | LLM-proto/src/durable-coordinator-core-impl.ts:905-942 | an answer is accepted as final if and only if it is the output of the last segment by the owner of the live lease of a running, uncancelled request without a result; then exactly its tokens and text are stored |
| `AttemptOutcomes.EntryRelays` | LLM-proto/src/durable-coordinator-core-impl.ts:944-985 | before the last segment a checkpoint of tolerable size goes to the awaited check and nothing is written; a bad or too large one casts its worker out |
| `AttemptOutcomes.CommitLeaves` | LLM-proto/src/durable-coordinator-core-impl.ts:985-1037 | after the await, what stands against the checkpoint is looked for in order, each with its own answer and effect; if nothing does, it is stored, the attempt closed and the lease given back |
| `AttemptOutcomes.RecoverLeaves` | LLM-proto/src/durable-coordinator-core-impl.ts:722-754 | a failed execution is retried exactly when its code is one of six, the request is known and the durable budget lasts: one retry counted, the worker out of the choice, the request waiting; otherwise it fails with that code |
| `AttemptOutcomes.ContinueAfterSuccess` | LLM-proto/src/durable-coordinator-core-impl.ts:687-699 | a stored answer frees the worker and queues a relayed request for its next segment |
| `AttemptOutcomes.ContinueAfterCancel` | LLM-proto/src/durable-coordinator-core-impl.ts:700-703 | a cancelled answer closes the attempt and the request as cancelled |
| `AttemptOutcomes.ContinueAfterRefusal` | LLM-proto/src/durable-coordinator-core-impl.ts:706-720 | any other answer casts the worker out, closes the attempt as suppressed and fails the request, each with the code that answer stands for |
| `StepOutcomes.HeadLeaves` | LLM-proto/src/durable-coordinator-core-impl.ts:544-555 | when a segment is entered, and what ends the loop before it |
| `StepOutcomes.TailLeaves` | LLM-proto/src/durable-coordinator-core-impl.ts:557-573 | after a segment with a result the current segment and the stream cursor move on, unless the request is closed or cancelled |
| `StepOutcomes.EndLeaves` | LLM-proto/src/durable-coordinator-core-impl.ts:515-542 | how each end of a run leaves an open request: a passed deadline fails it with that code, a user's abort cancels it, lost ownership writes nothing, any other exception fails it with its own code, and an end without a result fails it as a runtime fault; a cancellation is acknowledged once nothing is leased |
| `StepOutcomes.FailureLeaves` | LLM-proto/src/durable-coordinator-core-impl.ts:1045-1071 | a failure message closes a cancelled request; else only the owner of the live lease is heard, and its worker is cast out unless the code is one of nine that do not speak against it |
| `StepOutcomes.CancelLeaves` | LLM-proto/src/durable-coordinator-core-impl.ts:1082-1147 | which of the six dispositions a cancellation is answered with and what each leaves: an open request closed as cancelled whatever its stage, an idle one acknowledged at once, a completed or failed one untouched |
| `StepOutcomes.RegisterLeaves` | LLM-proto/src/worker-registry.ts:76-116 | a worker too small is refused; one on the same connection is refreshed under its generation; one on another gets the new generation and the old one is cast out; an unknown one is created |
| `StepOutcomes.RemoveLeaves` | LLM-proto/src/durable-coordinator-core-impl.ts:1221-1227 | a removed worker is forgotten and exactly its generation's leases are taken back |
| `StepOutcomes.BeatLeaves` | LLM-proto/src/durable-coordinator-core-impl.ts:1216-1219 | a heartbeat of the stored generation is noted and brings a disconnected worker back; any other changes nothing |
| `StepOutcomes.SilenceLeaves` | LLM-proto/src/durable-coordinator-core-impl.ts:1231-1240 | a worker silent for longer than the timeout is disconnected and its generation loses exactly its leases |
| `RecoveryOutcomes.DecisionIs` | LLM-proto/src/durable-recovery-plan.ts:138-223 | the planner's decision in terms of the stored records: cancelled first, then the first of five faults in their order, then a live lease, else a resume with the stored segment, checkpoint and deadline |
| `RecoveryOutcomes.RecoveryLeaves` | LLM-proto/src/durable-recovery-command.ts:187-303 | what a recovery answers and leaves, case by case: closed requests without lease, checkpoints or claim, waiting ones without a claim, resumed ones claimed, queued and without a lease |
| `RunControl.FromSegment` | LLM-proto/src/durable-coordinator-core-impl.ts:544-555 | a run enters a segment, throws its abort, or ends its loop |
| `RunControl.FromAttempt` | LLM-proto/src/durable-coordinator-core-impl.ts:582-668 | an attempt executes, waits for a worker, gives up on the segment, or throws |
| `RunControl.FromFailure` | LLM-proto/src/durable-coordinator-core-impl.ts:722-754 | after a failure the run waits for its next attempt exactly when the failure is retried |
| `RunControl.FromDelay` | LLM-proto/src/durable-coordinator-core-impl.ts:748-751 | after the delay the next attempt follows and nothing is written |
| `RunControl.FromAnswer` | LLM-proto/src/durable-coordinator-core-impl.ts:679-687 | an answer is judged at once, or awaits the check of its checkpoint |
| `RunControl.FromVerdict` | LLM-proto/src/durable-coordinator-core-impl.ts:687-721 | a segment is done with a result exactly when the answer was accepted or a duplicate |
| `RunControl.FromDone` | LLM-proto/src/durable-coordinator-core-impl.ts:556-573 | the next segment follows one with a result while the request is open |
| `RunControl.FromEnd` | LLM-proto/src/durable-coordinator-core-impl.ts:515-542 | a run is lost exactly when it threw an abort because a peer took over its recovery |
| `Handovers.ExecutedAssignments` | LLM-proto/src/durable-coordinator-core-impl.ts:636-685 | every dispatch that executes hands over the identity of the lease it leaves stored, the configured manifest and, past segment 0, the checkpoint stored for the segment before |
| `Handovers.ExecutorsHoldTheirInput` | LLM-proto/src/durable-coordinator-core-impl.ts:596-685 | in every behaviour whatever an executor works with is the identity of a lease issued for its run and segment, the run's manifest, and the very checkpoint its dispatch picked up, with the whole chain of custody behind it |
| `ResultOrigins.ResultsAreAnswers` | LLM-proto/src/durable-coordinator-core-impl.ts:884-942 | in every behaviour each stored result is, word for word, the output of one pushed result or one executor's answer, whose identity then owned the live lease of the last segment of the running, uncancelled request |
| `Idempotency.BoundForEver` | LLM-proto/src/durable-coordinator-core-impl.ts:318-329 | in every behaviour, over crashes of every kind, a bound key keeps its identifier |
| `Idempotency.AnswersAreBound` | LLM-proto/src/durable-coordinator-core-impl.ts:318-340 | after a submission under a key the key is bound to the identifier that was answered |
| `Idempotency.LaterSubmissionsChangeNothing` | LLM-proto/src/durable-coordinator-core-impl.ts:318-329 | of two submissions under one key, in every behaviour, the later answers the earlier one's identifier as existing and leaves the whole system as it was: no write, no request, no run |
| `Idempotency.DanglesExactlyWhenTorn` | LLM-proto/src/durable-coordinator-core-impl.ts:318-345 | a key comes to name no stored request if and only if a crash tears the submission that binds it right after the binding |
| `Idempotency.KeysNameRequests` | LLM-proto/src/durable-coordinator-core-impl.ts:318-345 | so without torn stretches every bound key names a stored request |
| `Idempotency.TornSubmissionsAreLost` | LLM-proto/src/durable-coordinator-core-impl.ts:318-345 | the input: after such a crash the same submission is answered as existing under an identifier that names no request |
| `FencedCommit.AcceptedExactlyWhenOwned` | LLM-proto/src/durable-coordinator-core-impl.ts:985-1037 | after the await a checkpoint is accepted if and only if its identity still owns the live lease of a running, uncancelled request, the envelope was valid, has not expired, and the slot holds nothing else; the compare-and-delete at the end never refuses |
| `FencedCommit.StoresOnlyWhenOwned` | LLM-proto/src/durable-coordinator-core-impl.ts:1001-1020 | a checkpoint write is issued only by that owner, and only of that checkpoint |
| `FencedCommit.AcceptedIsStored` | LLM-proto/src/durable-coordinator-core-impl.ts:1016-1036 | an accepted checkpoint is in its slot, its lease is gone, and no request or cancellation moved |
| `FencedCommit.MatchesExactlyTheOwner` | LLM-proto/src/lease-manager.ts:144-158 | the matcher accepts exactly the identity of the live lease, up to and including the instant of expiry |
| `FencedCommit.ReclaimedNeverMatches` | LLM-proto/src/lease-manager.ts:117-158 | an identity whose lease was given back never matches again, at any later point and time |
| `FencedCommit.RelayIsAcceptedOnce` | LLM-proto/src/durable-coordinator-core-impl.ts:985-1037 | so the same relayed result is accepted at most once |
| `RecoveryPlan.DecideIsExact` | LLM-proto/src/durable-recovery-plan.ts:138-223 | the planner resumes exactly the requests nothing stands against, and waits exactly for those whose lease has time left |
| `RecoveryPlan.FailuresAreJustified` | LLM-proto/src/durable-recovery-plan.ts:79-199 | the planner fails a request if and only if an open, uncancelled one has a fault, and the code it gives names a fault that is there |
| `RecoveryPlan.PlansNameWhatTheySaw` | LLM-proto/src/durable-recovery-plan.ts:138-223 | every plan names the very lease that was seen, a resume starts at the stored segment from a stored checkpoint, and the deadline stays the one set at creation |
| `RecoveryHandoff.HandoffIsSound` | LLM-proto/src/durable-recovery-command.ts:187-303 | a resume hands over a claimed, queued, unleased request with matching manifest, deadline and budget and, past segment 0, its unexpired predecessor checkpoint; every other outcome leaves no claim taken by the call |
| `RecoveryHandoff.ResumesExactlyWhenReady` | LLM-proto/src/durable-recovery-command.ts:187-303 | a recovery resumes if and only if the request is resumable, no live peer claim stands, and its lease, if any, has run out |
| `RecoveryOwnership.ClaimsExclude` | LLM-proto/src/durable-repository.ts:727-745 | with a clock that does not run back, another owner's claim between a claim and its release succeeds only at or after the expiry |
| `RecoveryOwnership.ReleaseLetsGo` | LLM-proto/src/durable-repository.ts:740-745 | a release removes the owner's claim and nobody else's |
| `RecoveryRunner.BoundedWait` | LLM-proto/src/durable-recovery-runner.ts:165-176 | the wait passes neither the poll interval nor any deadline, and is exactly the shortest of them |
| `RecoveryRunner.ClaimIsNeverLost` | LLM-proto/src/durable-recovery-runner.ts:281-310 | with timers on time and a time to live of at least 2, every renewal precedes the expiry, unless a renewal threw |
| `RecoveryRunner.NoPeerTakesOver` | LLM-proto/src/durable-recovery-runner.ts:281-310 | so no peer's claim succeeds while the runner executes |
| `RecoveryRunner.ShortClaimsCanBeLost` | LLM-proto/src/durable-recovery-runner.ts:281-284 | for every shorter time to live there is a behaviour in which a peer claims when the first renewal is due and the runner loses its claim |
| `RecoveryRunner.LosesExactlyWhenShort` | LLM-proto/src/durable-recovery-runner.ts:281-310 | so a claim can be lost if and only if its time to live is below two milliseconds |
| `RecoveryRunner.ResumedMeansKept` | LLM-proto/src/durable-recovery-runner.ts:281-345 | the caller is told of a resumed execution exactly when the execution did not throw and no renewal was refused or threw |
| `RecoveryRunner.StoppedHoldsNothing` | LLM-proto/src/durable-recovery-runner.ts:221-345 | however the runner stops, returning, throwing, or after a renewal that threw, it holds no claim, or just the one its owner left from before, which none of its decisions touched |
| `RecoveryRunner.StopsHoldingExactlyWhenLeft` | LLM-proto/src/durable-recovery-runner.ts:221-345 | the runner can come back to its caller with a claim of its owner stored if and only if that owner had left one before it started |
| `RecoveryRunner.LeftoverSurvives` | LLM-proto/src/durable-recovery-runner.ts:221-280 | such a left-over claim stays, whatever the request, when the runner is aborted before it decides, and when it finds the request missing or terminal |
| `InMemoryRepositories.InMemoryRepository.constructor` | LLM-proto/src/durable-repository.ts:510-522 | starts with every map empty |
| `InMemoryRepositories.InMemoryRepository.CreateRequest` | LLM-proto/src/durable-repository.ts:533-536 | stores the record under its own identifier |
| `InMemoryRepositories.InMemoryRepository.TransitionStage` | LLM-proto/src/durable-repository.ts:547-556 | sets the stage if and only if the stored one is the expected one |
| `InMemoryRepositories.InMemoryRepository.PutIdempotencyMapping` | LLM-proto/src/durable-repository.ts:564-569 | binds a key once; a second binding is answered by whether it agrees |
| `InMemoryRepositories.InMemoryRepository.AppendAttempt` | LLM-proto/src/durable-repository.ts:573-579 | adds the attempt at the end of its request's list |
| `InMemoryRepositories.InMemoryRepository.UpdateAttempt` | LLM-proto/src/durable-repository.ts:585-602 | patches the first attempt with the identifier and no other |
| `InMemoryRepositories.InMemoryRepository.PutLease` | LLM-proto/src/durable-repository.ts:606-609 | stores the lease in its request's slot |
| `InMemoryRepositories.InMemoryRepository.DeleteLease` | LLM-proto/src/durable-repository.ts:616-623 | deletes exactly the lease with that identifier |
| `InMemoryRepositories.InMemoryRepository.ListRequests` | LLM-proto/src/durable-repository.ts:543-545 | lists every request exactly once |
| `InMemoryRepositories.InMemoryRepository.ListActiveLeases` | LLM-proto/src/durable-repository.ts:625-627 | lists every stored lease exactly once |
| `InMemoryRepositories.InMemoryRepository.AllCheckpoints` | LLM-proto/src/durable-repository.ts:666-668 | lists every stored checkpoint exactly once |
| `InMemoryRepositories.InMemoryRepository.ListWorkers` | LLM-proto/src/durable-repository.ts:775-777 | lists every worker exactly once |
| `InMemoryRepositories.InMemoryRepository.PutCheckpoint` | LLM-proto/src/durable-repository.ts:631-640 | stores into an empty slot, keeps an identical one, and refuses a conflicting one without a trace |
| `InMemoryRepositories.InMemoryRepository.DeleteCheckpointsForRequest` | LLM-proto/src/durable-repository.ts:654-658 | deletes exactly the slots whose name starts with the identifier and a colon |
| `InMemoryRepositories.InMemoryRepository.ListCheckpoints` | LLM-proto/src/durable-repository.ts:660-664 | lists every checkpoint of the request exactly once, and no other |
| `InMemoryRepositories.InMemoryRepository.CollectExpiredCheckpoints` | LLM-proto/src/durable-repository.ts:670-679 | deletes exactly the expired checkpoints and hands each of them back once |
| `InMemoryRepositories.InMemoryRepository.CommitCompletion` | LLM-proto/src/durable-repository.ts:688-705 | stores result and stage together, only once and only from the expected stage |
| `InMemoryRepositories.InMemoryRepository.PutCancellation` | LLM-proto/src/durable-repository.ts:709-713 | stores the cancellation record |
| `InMemoryRepositories.InMemoryRepository.ClaimRecoveryOwnership` | LLM-proto/src/durable-repository.ts:727-738 | grants the claim unless another owner's claim is still running |
| `InMemoryRepositories.InMemoryRepository.ReleaseRecoveryOwnership` | LLM-proto/src/durable-repository.ts:740-745 | removes the claim if and only if the owner holds it |
| `InMemoryRepositories.InMemoryRepository.PutStreamCursor` | LLM-proto/src/durable-repository.ts:749-752 | stores the cursor |
| `InMemoryRepositories.InMemoryRepository.PutWorker` | LLM-proto/src/durable-repository.ts:761-764 | stores the worker record |
| `InMemoryRepositories.InMemoryRepository.DeleteWorker` | LLM-proto/src/durable-repository.ts:771-773 | removes the worker record |
| `LeaseManagers.LeaseManager.SetActive` | LLM-proto/src/lease-manager.ts:80-93 | stores the lease as its request's only live one |
| `LeaseManagers.LeaseManager.ReclaimByRequest` | LLM-proto/src/lease-manager.ts:106-110 | gives back the request's lease, whoever holds it |
| `LeaseManagers.LeaseManager.MatchIdentity` | LLM-proto/src/lease-manager.ts:144-158 | reports the first field in which an identity differs from the live lease, or none |
| `LeaseManagers.LeaseManager.ReclaimExact` | LLM-proto/src/lease-manager.ts:117-123 | gives the lease back if and only if the identity still owns it |
| `LeaseManagers.LeaseManager.ReclaimByWorkerGeneration` | LLM-proto/src/lease-manager.ts:126-133 | gives back exactly the leases of one worker generation |
| `WorkerRegistries.WorkerRegistry.MarkAs` | LLM-proto/src/worker-registry.ts:136-159 | a mark changes the stored worker only under its stored generation, and otherwise nothing |
| `WorkerRegistries.WorkerRegistry.BeatFrom` | LLM-proto/src/worker-registry.ts:123-133 | a heartbeat is refused unless its generation is the stored one, and then changes nothing |
| `WorkerRegistries.WorkerRegistry.GetAvailableWorker` | LLM-proto/src/worker-registry.ts:166-182 | the idle worker with enough memory of the lowest tier, then of the most memory; none only if there is none |
| `WorkerRegistries.WorkerRegistry.ListTimedOut` | LLM-proto/src/worker-registry.ts:185-195 | exactly the silent workers that are not revoked |
| `WorkerRegistries.WorkerRegistry.RevokeGeneration` | LLM-proto/src/worker-registry.ts:198-221 | removes the worker only if the generation is the stored one, and archives the generation in any case |
| `WorkerRegistries.WorkerRegistry.RevokeStored` | LLM-proto/src/worker-registry.ts:427-436 | marks the stored record revoked, archives it and deletes it |
| `WorkerRegistries.WorkerRegistry.GetByGeneration` | LLM-proto/src/worker-registry.ts:224-231 | a live record is found exactly when a stored worker of that generation is not revoked |
| `WorkerRegistries.WorkerRegistry.RegisterWith` | LLM-proto/src/worker-registry.ts:76-116 | refreshes on the same connection, replaces the generation on another, creates if unknown |
| `DurableCoordinators.DurableCoordinator.SubmitRequest` | LLM-proto/src/durable-coordinator-core-impl.ts:296-382 | the durable writes and the answer of a submission are those of the verified step, whose effect `SubmissionLeaves` states: the key bound, the request queued, or nothing at all under a bound key |
| `DurableCoordinators.DurableCoordinator.DispatchAttempt` | LLM-proto/src/durable-coordinator-core-impl.ts:575-668 | writes, outcome and assignment up to the executor call are those of the verified step, whose effect the four lemmas on dispatch state, for the registry's choice, which is none only if no idle worker fits |
| `DurableCoordinators.DurableCoordinator.AssignTo` | LLM-proto/src/durable-coordinator-core-impl.ts:632-668 | lease first, then the claim of the queued request; the lease stays if the claim fails; the assignment is the one `DispatchHandsOver` states, predecessor checkpoint included |
| `DurableCoordinators.DurableCoordinator.TakePredecessor` | LLM-proto/src/durable-coordinator-core-impl.ts:600-630 | the predecessor checkpoint is usable, or the request is failed and an expired one dropped |
| `DurableCoordinators.DurableCoordinator.AcceptResult` | LLM-proto/src/durable-coordinator-core-impl.ts:884-985 | writes and outcome up to the awaited check are those of the verified step, whose effect `EntryTurnsAway`, `EntryCompletes` and `EntryRelays` state, for a listing of exactly the leases of the reporting generation |
| `DurableCoordinators.DurableCoordinator.CompleteRequest` | LLM-proto/src/durable-coordinator-core-impl.ts:906-942 | the worker's own tokens and text are committed once, as `EntryCompletes` states, the lease given back and the checkpoints dropped |
| `DurableCoordinators.DurableCoordinator.CommitRelay` | LLM-proto/src/durable-coordinator-core-impl.ts:985-1037 | writes and outcome after the await are those of the verified step, for a listing of exactly that generation's leases |
| `DurableCoordinators.DurableCoordinator.RecoverFrom` | LLM-proto/src/durable-coordinator-core-impl.ts:722-754 | writes and outcome of the failure handler are those of the verified step |
| `DurableCoordinators.DurableCoordinator.ContinueAfter` | LLM-proto/src/durable-coordinator-core-impl.ts:687-721 | writes and outcome of the continuation are those of the verified step, for a listing of exactly the assigned generation's leases |
| `DurableCoordinators.DurableCoordinator.EnterNextSegment` | LLM-proto/src/durable-coordinator-core-impl.ts:544-560 | before each segment a cancelled or closed request ends the loop |
| `DurableCoordinators.DurableCoordinator.LeaveSegment` | LLM-proto/src/durable-coordinator-core-impl.ts:561-573 | after each segment a cancelled or completed request ends the loop |
| `DurableCoordinators.DurableCoordinator.FinishRun` | LLM-proto/src/durable-coordinator-core-impl.ts:515-542 | however the run ended the request is closed and its cancellation acknowledged |
| `DurableCoordinators.DurableCoordinator.HandleWorkerFailure` | LLM-proto/src/durable-coordinator-core-impl.ts:1045-1071 | only the owner's failure gives the lease back, and an isolatable one revokes the worker and takes back exactly its other leases |
| `DurableCoordinators.DurableCoordinator.Cancel` | LLM-proto/src/durable-coordinator-core-impl.ts:1082-1147 | the cancellation is durable before any other write; an idle request is closed at once, a running one is left to its run |
| `DurableCoordinators.DurableCoordinator.AcknowledgeCancellation` | LLM-proto/src/durable-coordinator-core-impl.ts:1149-1161 | acknowledged only when cancelled and without a lease, and only once |
| `DurableCoordinators.DurableCoordinator.RegisterWorker` | LLM-proto/src/durable-coordinator-core-impl.ts:1194-1214 | after a reconnection exactly the old generation's leases are taken back; with a new generation the registry stays free of duplicates |
| `DurableCoordinators.DurableCoordinator.DropWorker` | LLM-proto/src/durable-coordinator-core-impl.ts:1221-1227 | the worker's generation is revoked and its leases taken back |
| `DurableCoordinators.DurableCoordinator.ExpireWorker` | LLM-proto/src/durable-coordinator-core-impl.ts:1231-1240 | a silent worker is marked and its leases taken back |
| `DurableCoordinators.DurableCoordinator.FinalizeStage` | LLM-proto/src/durable-coordinator-core-impl.ts:1340-1357 | closes along an edge of the table, or does nothing |
| `DurableCoordinators.DurableCoordinator.IsolateWorker` | LLM-proto/src/durable-coordinator-core-impl.ts:1359-1365 | revokes a known generation and takes back exactly its leases |
| `DurableRecovery.ReclaimExactLease` | LLM-proto/src/durable-recovery-command.ts:104-123 | deletes the lease the plan saw, unless another has taken its place |
| `DurableRecovery.TerminalizeRequest` | LLM-proto/src/durable-recovery-command.ts:133-165 | closes the request through queued if it was only accepted |
| `DurableRecovery.NormalizeResumeStage` | LLM-proto/src/durable-recovery-command.ts:167-178 | queues an interrupted request again, or reports that its stage moved |
| `DurableRecovery.BeginDurableRecovery` | LLM-proto/src/durable-recovery-command.ts:187-303 | claim, re-read, plan and apply: writes and outcome are those of the verified step |
| `CoordinatorRefinement.Open` | LLM-proto/src/durable-coordinator-core-impl.ts:226-243 | a new coordinator over a new repository is at the start of the system |
| `CoordinatorRefinement.Join` | LLM-proto/src/durable-coordinator-core-impl.ts:226-243 | another coordinator may join over the repository at any time |
| `CoordinatorRefinement.SubmitRequest` | LLM-proto/src/durable-coordinator-core-impl.ts:296-382 | over the repository of any state the system can be in, one call of the class is one whole submission event, and leaves the log of the state that leads to |
| `CoordinatorRefinement.RecoverRequest` | LLM-proto/src/durable-recovery-command.ts:187-303 | so with a recovery, and its outcome is the event's |
| `CoordinatorRefinement.StepRun` | LLM-proto/src/durable-coordinator-core-impl.ts:515-757 | so with the next stretch of a run, from whichever await it is at, and the control point it reaches is the event's |
| `CoordinatorRefinement.TakeStretch` | LLM-proto/src/durable-coordinator-core-impl.ts:515-757 | the handler for each control point writes and reaches what the stretch says, with the leases it had to list and the worker it had to pick |
| `CoordinatorRefinement.PushResult` | LLM-proto/src/durable-coordinator-core-impl.ts:884-985 | so with a pushed result up to the awaited check |
| `CoordinatorRefinement.SettlePush` | LLM-proto/src/durable-coordinator-core-impl.ts:985-1037 | so with what follows that check |
| `CoordinatorRefinement.ReportFailure` | LLM-proto/src/durable-coordinator-core-impl.ts:1045-1071 | so with a failure message |
| `CoordinatorRefinement.AskCancel` | LLM-proto/src/durable-coordinator-core-impl.ts:1082-1147 | so with a cancellation, and its disposition is the event's |
| `CoordinatorRefinement.RegisterWorker` | LLM-proto/src/durable-coordinator-core-impl.ts:1194-1214 | so with a registration under a generation never registered before |
| `CoordinatorRefinement.DropWorker` | LLM-proto/src/durable-coordinator-core-impl.ts:1221-1227 | so with the removal of a worker |
| `CoordinatorRefinement.Beat` | LLM-proto/src/worker-registry.ts:123-133 | so with a heartbeat |
| `CoordinatorRefinement.FindSilent` | LLM-proto/src/durable-coordinator-core-impl.ts:1231-1240 | so with the treatment of a silent worker |
| `CoordinatorRefinement.Collect` | LLM-proto/src/durable-repository.ts:670-679 | so with the collection of expired checkpoints |
| `CoordinatorRefinement.RenewClaim` | LLM-proto/src/durable-repository.ts:727-738 | so with the renewal of a recovery claim, refused or not |
| `CoordinatorRefinement.LetGo` | LLM-proto/src/durable-repository.ts:740-745 | so with the release of one |
| `CoordinatorRefinement.LivesOn` | LLM-proto/src/durable-coordinator-core-impl.ts:212-1396 | hence after any calls of any coordinators the repository is at the end of a behaviour of the system |
| `CoordinatorRefinement.RepositoryCompletesOnce` | LLM-proto/src/durable-repository.ts:688-705 | and the theorems hold of its records: a result exactly while completed, kept for good, never after a cancellation, and no lease of a closed request |
| `DurableObjectKeys.RenderIsInjective` | LLM-proto/src/durable-object-repository.ts:58-86 | different records have different storage keys |
| `DurableObjectKeys.KindPrefixIsExact` | LLM-proto/src/durable-object-repository.ts:58-86 | a kind's prefix lists exactly the keys of that kind: the lease prefix never lists the lease index |
| `DurableObjectKeys.CheckpointPrefixIsExact` | LLM-proto/src/durable-object-repository.ts:76-86 | a request's checkpoint prefix lists exactly that request's checkpoints |
| `PercentEncoding.EncodeIsAnEncoder` | LLM-proto/src/durable-object-repository.ts:72-86 | percent-encoding of the UTF-8 octets is injective and yields no colon, which is all the keys need of their encoder |
| `PercentEncoding.DecimalStays` | LLM-proto/src/durable-object-repository.ts:72-80 | a segment number is its own encoding |
| `DurableObjectRepositories.DurableObjectRepository.CreateRequest` | LLM-proto/src/durable-object-repository.ts:190-193 | writes the one key of the record |
| `DurableObjectRepositories.DurableObjectRepository.TransitionStage` | LLM-proto/src/durable-object-repository.ts:204-215 | sets the stage if and only if the stored one is the expected one |
| `DurableObjectRepositories.DurableObjectRepository.SetRequestField` | LLM-proto/src/durable-object-repository.ts:116-160 | a property written through a view, however stale, changes that one property of the latest record and rolls nothing back |
| `DurableObjectRepositories.DurableObjectRepository.SetWorkerField` | LLM-proto/src/durable-object-repository.ts:162-174 | a property written through a worker view changes nothing once another generation is stored |
| `DurableObjectRepositories.DurableObjectRepository.PutIdempotencyMapping` | LLM-proto/src/durable-object-repository.ts:222-228 | binds a key once |
| `DurableObjectRepositories.DurableObjectRepository.AppendAttempt` | LLM-proto/src/durable-object-repository.ts:231-238 | adds the attempt at the end of the list |
| `DurableObjectRepositories.DurableObjectRepository.UpdateAttempt` | LLM-proto/src/durable-object-repository.ts:244-258 | patches the first attempt with the identifier |
| `DurableObjectRepositories.DurableObjectRepository.PutLease` | LLM-proto/src/durable-object-repository.ts:262-271 | replaces the request's lease and keeps the lease index exact |
| `DurableObjectRepositories.DurableObjectRepository.DeleteLease` | LLM-proto/src/durable-object-repository.ts:278-286 | deletes exactly the lease the identifier indexes, and its index entry |
| `DurableObjectRepositories.DurableObjectRepository.PutCheckpoint` | LLM-proto/src/durable-object-repository.ts:293-302 | stores, keeps or refuses as in memory |
| `DurableObjectRepositories.DurableObjectRepository.DeleteCheckpointsForRequest` | LLM-proto/src/durable-object-repository.ts:313-317 | deletes exactly the request's own checkpoints |
| `DurableObjectRepositories.DurableObjectRepository.ListRequests` | LLM-proto/src/durable-object-repository.ts:200-202 | lists every request exactly once |
| `DurableObjectRepositories.DurableObjectRepository.ListActiveLeases` | LLM-proto/src/durable-object-repository.ts:288-290 | lists every lease exactly once, and no index entry |
| `DurableObjectRepositories.DurableObjectRepository.AllCheckpoints` | LLM-proto/src/durable-object-repository.ts:324-327 | lists every checkpoint exactly once |
| `DurableObjectRepositories.DurableObjectRepository.ListWorkers` | LLM-proto/src/durable-object-repository.ts:434-438 | lists every worker exactly once |
| `DurableObjectRepositories.DurableObjectRepository.ListCheckpoints` | LLM-proto/src/durable-object-repository.ts:319-322 | lists every checkpoint of the request exactly once, and no other |
| `DurableObjectRepositories.DurableObjectRepository.CollectExpiredCheckpoints` | LLM-proto/src/durable-object-repository.ts:329-338 | deletes exactly the expired checkpoints and hands each of them back once |
| `DurableObjectRepositories.DurableObjectRepository.CommitCompletion` | LLM-proto/src/durable-object-repository.ts:346-366 | stores result and stage together, only once and only from the expected stage |
| `DurableObjectRepositories.DurableObjectRepository.ClaimRecoveryOwnership` | LLM-proto/src/durable-object-repository.ts:386-398 | grants the claim unless another owner's claim is still running |
| `DurableObjectRepositories.DurableObjectRepository.ReleaseRecoveryOwnership` | LLM-proto/src/durable-object-repository.ts:400-406 | removes the claim if and only if the owner holds it |
| `DurableObjectRepositories.DurableObjectRepository.PutWorker` | LLM-proto/src/durable-object-repository.ts:420-423 | writes the one key of the worker |
| `DurableObjectRepositories.OwnDeletedIsDelete` | LLM-proto/src/durable-repository.ts:654-658 | the in-memory prefix deletion equals the adapter's if and only if no stored request identifier extends the deleted one by a colon |
| `DurableObjectRepositories.SeparatorsMakeADifference` | LLM-proto/src/durable-repository.ts:654-658 | with such an identifier the two repositories do differ |
| `InMemoryViews.LiveRepository.WriteRequestField` | LLM-proto/src/durable-repository.ts:223-241 | a property written on a request view reaches the stored record if and only if the view's record object is still the stored one |
| `InMemoryViews.LiveRepository.WriteWorkerField` | LLM-proto/src/durable-repository.ts:223-241 | so with a worker view |
| `AdapterRefinement.EffectsAgree` | LLM-proto/src/durable-object-repository.ts:96-438 | from the same records any call leaves the same records in both repositories if and only if it does not write a new value through the view of a replaced record and does not delete by a prefix another stored identifier extends |
| `AdapterRefinement.DifferenceShows` | LLM-proto/src/durable-object-repository.ts:96-438 | after any other call one read tells the two apart |
| `AdapterRefinement.NeverApartIffHarmless` | LLM-proto/src/durable-object-repository.ts:96-438 | along any sequence of calls no record ever differs if and only if every call is of that harmless kind where it is made |
| `AdapterRefinement.ReplacedRecordsDiffer` | LLM-proto/src/durable-object-repository.ts:116-160 | the input: a request created twice and written through the first view stays as it is in memory and changes in the adapter |
| `AdapterRefinement.RefreshedWorkersDiffer` | LLM-proto/src/durable-object-repository.ts:162-174 | so with a worker put twice under one generation; under a second generation neither changes |
| `AdapterReplies.RepliesTellTheRecords` | LLM-proto/src/durable-repository.ts:510-761 | two stores that answer every read of the interface alike hold the same records |
| `AdapterReplies.TransitionsAreTold` | LLM-proto/src/durable-repository.ts:547-556 | a transition is confirmed exactly when it was made from the expected stage |
| `AdapterReplies.CheckpointsAreTold` | LLM-proto/src/durable-repository.ts:631-645 | a checkpoint is reported stored exactly when its slot changed, and otherwise unchanged exactly when what is there has its digest |
| `AdapterReplies.CompletionsAreTold` | LLM-proto/src/durable-repository.ts:688-709 | a completion is reported committed exactly when there was no result and the stage was the expected one, and then the result is there |
| `AdapterReplies.ClaimsAreTold` | LLM-proto/src/durable-repository.ts:727-738 | a claim is refused exactly while a peer's is live; otherwise the claimant owns the request as claimed |
| `AdapterReplies.ReleasesAndBindingsAreTold` | LLM-proto/src/durable-repository.ts:564-746 | a release is confirmed exactly when the owner's claim went, a binding exactly when the key then names the request |
| `AdapterRefinement.Lockstep` | LLM-proto/src/durable-object-repository.ts:96-438 | driven by the same harmless calls from empty, adapter and in-memory repository give the same answer to every call of the interface, listings as multisets included, and end with the same records |
| `Windows.MaxSpan` | LLM-proto/src/span-router.ts:243-253 | the greatest number of segments from a start that fits the memory |
| `SpanRouters.ComputeMaximumSpan` | LLM-proto/src/span-router.ts:243-253 | the loop finds that greatest number |
| `SpanRouters.RankOffers` | LLM-proto/src/span-router.ts:173-236 | the ranking offers exactly the idle, unused workers that can hold a segment, in preference order |
| `SpanRouters.WhatDecides` | LLM-proto/src/span-router.ts:207-231 | what decides between candidates, in turn: resident prefix, resident bytes, missing bytes, tier, span length, memory, identifier |
| `SpanRouters.RankWorkers` | LLM-proto/src/span-router.ts:173-236 | the collecting loop and sort compute that ranking, each candidate with what the ledger says of its longest span, as `CandidatesAreTheWorkers` states |
| `SpanRouters.CandidatesAreTheWorkers` | LLM-proto/src/span-router.ts:178-206 | what a candidate carries: the pooled worker itself, how far it gets from here and, with a ledger, exactly what the ledger says of that span |
| `SpanRouters.RanksAsWorkers` | LLM-proto/src/span-router.ts:207-231 | one candidate is strictly preferred if and only if its worker outranks the other's: by the ledger's prefix, resident and missing bytes where there is a ledger, then tier, span, memory and identifier |
| `SpanRouters.RouteLeadsBest` | LLM-proto/src/span-router.ts:143-170 | a route starts with the longest span of a free worker that strands nothing and that no such worker outranks, and goes on as found from there |
| `SpanRouters.BestRouteIsUnique` | LLM-proto/src/span-router.ts:130-170 | where the collation order tells the workers apart there is at most one route that is best span by span |
| `SpanRouters.RouteIsTheBest` | LLM-proto/src/span-router.ts:106-170 | the route answered is that best one, and if there is a best one it is answered: over pool, ledger and memory alone |
| `SpanRouters.LongestSpanSuffices` | LLM-proto/src/span-router.ts:130-170 | the exchange: a suffix that can be tiled starting with some worker can be tiled with that worker's longest span first |
| `SpanRouters.SearchIsComplete` | LLM-proto/src/span-router.ts:130-170 | if any tiling exists, of whatever spans, the search finds a route |
| `SpanRouters.RouteIffRoutable` | LLM-proto/src/span-router.ts:106-123 | a route is found if and only if some tiling of the suffix into contiguous spans on distinct idle workers fits their memory, and it is such a tiling |
| `SpanRouters.RouteIsPreferred` | LLM-proto/src/span-router.ts:143-170 | the route starts with the most preferred candidate that does not strand the suffix |
| `SpanRouters.SearchRoute` | LLM-proto/src/span-router.ts:130-170 | with the shared set of dead states the search finds exactly what it would find without it, and terminates |
| `SpanRouters.ComputeRoute` | LLM-proto/src/span-router.ts:106-123 | null exactly when the idle workers cannot cover the suffix; a bad start is refused; the route tiles the suffix and is the best one span by span |
| `WorkerPools.WorkerPool.Register` | LLM-proto/src/worker-pool.ts:34-47 | stores the worker as free |
| `WorkerPools.WorkerPool.Heartbeat` | LLM-proto/src/worker-pool.ts:54-69 | brings a disconnected worker back and refuses an unknown one |
| `WorkerPools.WorkerPool.GetAvailableWorker` | LLM-proto/src/worker-pool.ts:71-95 | the idle worker with enough memory of the lowest tier, then of the most memory; none only if there is none |
| `WorkerPools.WorkerPool.Mark` | LLM-proto/src/worker-pool.ts:98-142 | changes the status of that worker only, and nothing for an unknown one |
| `HiddenStates.CheckpointStore.Save` | LLM-proto/src/checkpoint.ts:265-274 | stores a well-formed checkpoint under its request and segment and touches no other; an ill-formed one is refused and changes nothing |
| `HiddenStates.CheckpointStore.Latest` | LLM-proto/src/checkpoint.ts:291-315 | the checkpoint of the highest segment within the bound, or none |
| `HiddenStates.CheckpointStore.DeleteAll` | LLM-proto/src/checkpoint.ts:318-321 | removes every checkpoint of the request and no other |
| `HiddenStates.ComposeJoins` | LLM-proto/src/span-pipeline.ts:399-478 | running two stretches of segments one after the other is running them as one |
| `PipelineScenes.AcceptedIsHonest` | LLM-proto/src/span-pipeline.ts:516-656 | a span result that passes validation continues the chain of hidden states |
| `PipelineScenes.ValidationIsExact` | LLM-proto/src/span-pipeline.ts:516-656 | a result passes exactly when it names its assignment and carries only an output at the end, or before the end only a well-formed checkpoint of this request at the span boundary |
| `PipelineScenes.SettledStaysHonest` | LLM-proto/src/span-pipeline.ts:399-478 | an answered call, whatever others did to the pool and the store meanwhile, leaves the request's checkpoints honest |
| `PipelineScenes.CallsLeave` | LLM-proto/src/span-pipeline.ts:399-478 | during a call the others see its worker at work on the first segment; afterwards it is free if its answer was accepted and out of the choice if not, and every other worker is as the others left it |
| `SpanRuns.TripsFollowTheirRoute` | LLM-proto/src/span-pipeline.ts:399-478 | a trip sends one call for each span of its route, in order, to the span's worker, for its segments, from the boundary the call before answered with |
| `SpanRuns.TripsEndAtACall` | LLM-proto/src/span-pipeline.ts:399-478 | it ends at the call that brought the output or was refused, and reports the segment it got to |
| `SpanRuns.RefusedWorkersStayOut` | LLM-proto/src/span-pipeline.ts:299-374 | while nobody brings it back, a worker whose result was refused is on no route of a later attempt |
| `SpanRuns.TripIsHonest` | LLM-proto/src/span-pipeline.ts:399-478 | a trip along a tiling from an honest input ends in the output of running all segments, or at a call that was refused, with only honest checkpoints saved |
| `SpanRuns.RunsMoveOn` | LLM-proto/src/span-pipeline.ts:299-374 | along a run the first segments of the attempts never fall back, and every attempt waits at least once before the next |
| `SpanRuns.RunsAreRight` | LLM-proto/src/span-pipeline.ts:272-374 | every run answers with the composition of all segment functions, or fails with every attempt allowed having a fault of its own: no tiling for the pool it saw, a route too long to time, or a call it sent that was refused |
| `SpanRuns.AttemptsStartAtNewest` | LLM-proto/src/span-pipeline.ts:299-374 | while nobody else touches the request's checkpoints, every attempt starts right after the newest resumable one of that moment |
| `SpanRuns.RunTouchesOwn` | LLM-proto/src/span-pipeline.ts:272-374 | a run changes no other request's checkpoints |
| `SpanPipelines.SpanPipeline.ExecuteSpan` | LLM-proto/src/span-pipeline.ts:399-478 | sends the call for the span as things stand, and leaves the scene of its verdict: a boundary saved and the worker free, or the worker out of the choice |
| `SpanPipelines.SpanPipeline.ExecuteRoute` | LLM-proto/src/span-pipeline.ts:399-478 | a whole route is exactly the trip described, call by call |
| `SpanPipelines.SpanPipeline.ExecuteWithRoute` | LLM-proto/src/span-pipeline.ts:299-374 | the attempts are exactly a run as described: each on a route found for the pool it saw, each but the last failed, the next one starting at the newest checkpoint unless that is older |
| `SpanPipelines.SpanPipeline.Run` | LLM-proto/src/span-pipeline.ts:272-297 | whatever workers fail, answer nonsense or come and go, an answer is the composition of all segment functions, throwing means every attempt the run made had its own fault, and afterwards the request has no checkpoint left |
| `SpanPipelines.RunsStartAtNewest` | LLM-proto/src/span-pipeline.ts:299-374 | every attempt of such a run, undisturbed by others, starts after the newest checkpoint |
| `SpanPipelines.RunsTouchOwn` | LLM-proto/src/span-pipeline.ts:272-297 | and the run leaves other requests' checkpoints as they were |
| `SegmentRuns.LegIsRight` | LLM-proto/src/pipeline.ts:342-430 | one segment's accepted result continues the chain of hidden states; giving up means that every try allowed had a fault: nobody usable in the pool it saw, or a call it sent that was refused |
| `SegmentRuns.RetriesGoElsewhere` | LLM-proto/src/pipeline.ts:342-430 | while nobody brings it back, a worker whose result was refused gets no other try of the segment |
| `SegmentRuns.RunsAreRight` | LLM-proto/src/pipeline.ts:259-331 | every run answers with the composition of all segment functions, or fails at a segment whose tries were all at fault, or because the checkpoint it should have started from was not there |
| `SegmentRuns.RunTouchesOwn` | LLM-proto/src/pipeline.ts:259-331 | a run changes no other request's checkpoints |
| `SegmentPipelines.SegmentPipeline.CallWorker` | LLM-proto/src/pipeline.ts:342-430 | sends the call for one segment and leaves the scene of its verdict, the checkpoint saved before the worker is free again |
| `SegmentPipelines.SegmentPipeline.ExecuteSegmentWithRetry` | LLM-proto/src/pipeline.ts:342-430 | the tries are exactly a leg as described, every retry from the same predecessor |
| `SegmentPipelines.SegmentPipeline.ExecuteAllSegments` | LLM-proto/src/pipeline.ts:287-331 | the legs are exactly a run as described, segment after segment |
| `SegmentPipelines.SegmentPipeline.Run` | LLM-proto/src/pipeline.ts:259-285 | an answer is the composition of all segment functions for any failures, malformed results and retries; throwing means a segment all of whose tries were at fault, or that the checkpoint to start from was not there |
| `ResidencyLedgers.MeasureTotal` | LLM-proto/src/artifact-residency-ledger.ts:61-89 | the total is refused exactly when it is not a safe integer, before the sum could overflow |
| `ResidencyLedgers.BytesAreConserved` | LLM-proto/src/artifact-residency-ledger.ts:288-334 | for every worker and range, resident bytes and missing bytes add up to the range |
| `ResidencyLedgers.WindowsAreSafe` | LLM-proto/src/artifact-residency-ledger.ts:61-89 | once the total is safe, every such sum is |
| `ResidencyLedgers.ArtifactResidencyLedger.SynchronizeWorker` | LLM-proto/src/artifact-residency-ledger.ts:176-210 | replaces one worker's inventory, or refuses a list with an unknown index and changes nothing |
| `ResidencyLedgers.ArtifactResidencyLedger.MarkResidentRange` | LLM-proto/src/artifact-residency-ledger.ts:223-238 | marks the whole range or, if it is invalid, nothing |
| `ResidencyLedgers.ArtifactResidencyLedger.MarkResident` | LLM-proto/src/artifact-residency-ledger.ts:212-221 | adds one segment to one worker |
| `ResidencyLedgers.ArtifactResidencyLedger.MarkEvicted` | LLM-proto/src/artifact-residency-ledger.ts:240-250 | removes one segment from one worker and says whether it was there; an unknown index is refused and changes nothing |
| `ResidencyLedgers.ArtifactResidencyLedger.ClearWorker` | LLM-proto/src/artifact-residency-ledger.ts:252-254 | forgets one worker |
| `ResidencyLedgers.ArtifactResidencyLedger.ResidentPrefixLength` | LLM-proto/src/artifact-residency-ledger.ts:262-286 | how far the held segments reach without a gap, at most the maximum |
| `ResidencyLedgers.ArtifactResidencyLedger.ResidentArtifactBytes` | LLM-proto/src/artifact-residency-ledger.ts:288-302 | the bytes held within a range, always a safe integer |
| `ResidencyLedgers.ArtifactResidencyLedger.ArtifactBytes` | LLM-proto/src/artifact-residency-ledger.ts:304-311 | the bytes of a range, always a safe integer |
| `ResidencyLedgers.ArtifactResidencyLedger.MissingArtifacts` | LLM-proto/src/artifact-residency-ledger.ts:313-327 | exactly the segments of the range that are not held, in order |
| `ResidencyLedgers.ArtifactResidencyLedger.MissingArtifactBytes` | LLM-proto/src/artifact-residency-ledger.ts:329-334 | the bytes of those, always a safe integer |
| `ChunkOffers.ComputeModelMaximumSpanLength` | LLM-proto/src/adaptive-chunk-dispatcher.ts:600-615 | the two-pointer loop finds the greatest length of any contiguous window that fits the budget |
| `ChunkOffers.LongestSpan` | LLM-proto/src/adaptive-chunk-dispatcher.ts:600-615 | some window of that length fits and no longer one does |
| `ChunkOffers.OfferByTelemetry` | LLM-proto/src/adaptive-chunk-dispatcher.ts:554-648 | the offer in terms of the telemetry alone: nothing when over budget, failing half the time or not fitting; one segment on tier 3; the longest span that fits here when neither near the budget nor unsteady; and with one of the two half, with both a quarter, of the longest span that fits anywhere, within what fits here and at least one |
| `ChunkOffers.WorseTelemetryOffersNoMore` | LLM-proto/src/adaptive-chunk-dispatcher.ts:554-648 | raising a load, the failure rate or the jitter, or lowering uptime or free memory, never raises an offer |
| `ChunkOffers.OfferedNothing` | LLM-proto/src/adaptive-chunk-dispatcher.ts:554-585 | a worker is offered nothing exactly when the next segment does not fit, it is over budget, or it fails too often |
| `ChunkOffers.OfferFits` | LLM-proto/src/adaptive-chunk-dispatcher.ts:554-585 | what is offered is the longest length that fits the worker here, is one segment on tier 3 and stays within the capacity its throttling leaves, or a single segment when that would leave none |
| `ChunkOffers.WhoIsEligible` | LLM-proto/src/adaptive-chunk-dispatcher.ts:519-545 | eligible is a worker within its load budget, failing less than half the time, that the next segment fits; and the worker of the last chunk only off tier 3, long up and with less than a tenth of failures |
| `ChunkDispatchers.WhatMovesAScore` | LLM-proto/src/adaptive-chunk-dispatcher.ts:643-708 | what moves a candidate's score, other things equal: a continuation, held bytes, tier, length, having been assigned last, load and failures |
| `ChunkDispatchers.WhatTelemetryIsWorth` | LLM-proto/src/adaptive-chunk-dispatcher.ts:643-708 | and what uptime, jitter, speed and checkpoint bandwidth are worth, with their caps |
| `ChunkDispatchers.EachChunkWasBest` | LLM-proto/src/adaptive-chunk-dispatcher.ts:391-409 | each chunk of a run went to an eligible worker that no eligible one outscored on the loads, orders and inventories of that moment, and has the length that worker was offered |
| `ChunkDispatchers.TilesMeans` | LLM-proto/src/adaptive-chunk-dispatcher.ts:360-513 | a run's chunks are contiguous from segment 0, each fits its worker, is single on tier 3, and repeats a worker only as a rolling continuation |
| `ChunkDispatchers.AdaptiveChunkDispatcher.CheckInventory` | LLM-proto/src/adaptive-chunk-dispatcher.ts:803-870 | an inventory passes exactly when its segments exist, none is repeated, and the identities name exactly them with the manifest's digests |
| `ChunkDispatchers.AdaptiveChunkDispatcher.RegisterWorker` | LLM-proto/src/adaptive-chunk-dispatcher.ts:307-337 | a worker is stored with its tier, telemetry and inventory and no past assignment, or nothing changes; every other worker, inventory and download record stays |
| `ChunkDispatchers.AdaptiveChunkDispatcher.UpdateHeartbeat` | LLM-proto/src/adaptive-chunk-dispatcher.ts:339-358 | a known worker's telemetry and inventory are replaced together and its tier and order kept, or nothing changes; every other worker, inventory and download record stays |
| `ChunkDispatchers.AdaptiveChunkDispatcher.SelectCandidate` | LLM-proto/src/adaptive-chunk-dispatcher.ts:391-409 | an eligible worker that no eligible one outscores on the board as it is; none only if none is eligible |
| `ChunkDispatchers.AdaptiveChunkDispatcher.Fetch` | LLM-proto/src/adaptive-chunk-dispatcher.ts:409-477 | only missing segments are downloaded, they become resident, the report adds up, and its guard never fires |
| `ChunkDispatchers.AdaptiveChunkDispatcher.Run` | LLM-proto/src/adaptive-chunk-dispatcher.ts:360-513 | each chunk goes to the best choice of its moment at the length it is offered, and the board of workers, order counter and inventories ends as those chunks leave it; the chunks tile the model, or the run stops exactly at a segment for which no worker is eligible; without eviction or a new inventory no worker downloads a segment twice, across runs too |
| `ManifestGeometry.IsContiguousLayerSuccessor` | LLM-proto/src/segment-layer-range.ts:6-20 | holds exactly for safe layers that differ by one, also at the largest safe integer |
| `ManifestGeometry.ValidateSegmentArtifact` | LLM-proto/src/model-manifest-validator.ts:705-777 | each of the four per-artifact issues is raised exactly when its fault is there |
| `ManifestGeometry.CheckTopology` | LLM-proto/src/model-manifest-validator.ts:670-702 | each of the three topology issues is raised exactly when its fault is there |
| `ManifestGeometry.SortIsPermutation` | LLM-proto/src/model-manifest-validator.ts:666-667 | sorting a copy by index loses no segment and invents none |
| `ManifestGeometry.ValidateSegments` | LLM-proto/src/model-manifest-validator.ts:620-703 | every issue is raised exactly when its fault is there; with a usable layer count none is raised if and only if the segments partition the layers |
| `ManifestGeometry.CleanIffPartitions` | LLM-proto/src/model-manifest-validator.ts:620-703 | no issue if and only if the indexes are exactly 0 to n-1 in any order and the ranges, rising with the index, leave no layer out |
| `ManifestGeometry.EveryLayerInOneSegment` | LLM-proto/src/model-manifest-validator.ts:620-703 | in an accepted manifest every layer lies in exactly one segment |
| `CheckpointFrames.CheckedMultiply` | LLM-proto/src/checkpoint-transfer-measurement.ts:614-619 | the product, or nothing exactly when it is not a safe integer |
| `CheckpointFrames.CheckedAdd` | LLM-proto/src/checkpoint-transfer-measurement.ts:607-612 | the sum, or nothing exactly when it is not a safe integer |
| `CheckpointFrames.PayloadBytes` | LLM-proto/src/checkpoint-transfer-measurement.ts:265-281 | the declared payload size, or nothing exactly when the whole product is not a safe integer |
| `CheckpointFrames.Validate` | LLM-proto/src/checkpoint-transfer-measurement.ts:485-500 | nothing is wrong exactly when the header is valid and the payload has the declared, safe size |
| `CheckpointFrames.Serialize` | LLM-proto/src/checkpoint-transfer-measurement.ts:176-207 | a frame is written exactly for a valid checkpoint whose lengths fit, and reads back as that checkpoint |
| `CheckpointFrames.ReadsBack` | LLM-proto/src/checkpoint-transfer-measurement.ts:209-258 | reading a written frame gives the checkpoint back |
| `CheckpointFrames.ReadsOnlyFrames` | LLM-proto/src/checkpoint-transfer-measurement.ts:209-258 | whatever is read is valid, and the frame is its length prefix, a header that decodes to its header, its payload, and nothing else |
| `CheckpointFrames.PayloadLengthIsFixed` | LLM-proto/src/checkpoint-transfer-measurement.ts:239-251 | behind an accepted header, a payload with bytes added or dropped anywhere is refused |
| `CheckpointFrames.FramesArePrefixFree` | LLM-proto/src/checkpoint-transfer-measurement.ts:239-251 | no accepted frame continues another |
| `CheckpointFrames.CutFramesAreRefused` | LLM-proto/src/checkpoint-transfer-measurement.ts:209-251 | every way of cutting an accepted frame short is refused |
| `CheckpointFrames.PrefixIsUnique` | LLM-proto/src/checkpoint-transfer-measurement.ts:191-191 | no other four bytes read as the same header length |
| `CheckpointFrames.FramesAreDistinct` | LLM-proto/src/checkpoint-transfer-measurement.ts:176-207 | different valid checkpoints have different frames |

## Left out

- The hostile-input layer (proxies, getters read once, abort-signal bridging, envelope and option checks): inputs are plain values already captured, and ill-typed ones appear only where a check of them is modelled.
- Observability: start and completion times, total durations, error texts, the suppression log and status views.
- Host timers, promises and the Durable Object runtime: nondeterministic steps over a map; that a timer eventually fires is not modelled.
- SHA-256, signatures and the generation of UUIDs.
- `submit`'s prompt and option validation and the in-flight promise map: a run is an entry of the system state instead.
- GetRequest: what a retained view shows when it is read later is not modelled: in memory it follows its record object, in the adapter it is the copy made when the view was taken, with the writes through that view. The coordinator's own reads and writes of a record lie within one stretch.
- SetRequestField: of the properties that a view leaves unprotected, the three that the coordinator writes (segment, retry count, last error), one at a time; the stage and the times could be written through a view as well, and are not; deleting properties and the guards on identity properties are not modelled.
- LaterSubmissionsChangeNothing: a submission under a bound key whose request is not in flight goes on to recover that request; this is the separate event of a recovery.
- RevokeGeneration: the archive of revoked generations is kept, but nothing reads it except the lookup by generation.
- EncodeIsAnEncoder: strings are sequences of Unicode scalar values; one with an unpaired surrogate, which the encoder refuses, does not occur.
- Lockstep: calls use views that were handed out, fresh lease identifiers and records routed to the request they name, as `Proper` states; listings are compared as multisets, their order being the storage's own.
- ClaimIsNeverLost: timers are taken to be on time; a late timer can lose a claim, and the run then stops with lost ownership.
- RunsEnd: an executor call that never settles leaves its run waiting; the bound counts stretches, and `RunsCanFinish` lets every call settle.
- RankWorkers: preference keys are compared in the program's order; the collation of identifiers is an abstract ranking by integers, and what the ledger says of a worker and a span is a function given to the router.
- WhatMovesAScore: scores are real numbers, so the rounding of floating-point sums, which may tie or separate nearly equal scores, is not modelled.
- ComputeRoute: the field checks and the geometry check on the segment list are not repeated here; contiguity of ranges is proved in `ManifestGeometry`.
- SpanPipeline.Run: the ledger marks a span makes (resident range, cleared worker) enter only through the unconstrained locality of later routes; timing of attempts and option resolution are not modelled.
- AdaptiveChunkDispatcher.Run: the dispatcher's path without a ledger, its transport allow-list, connection addresses, capture reports and checkpoint transfer estimates are not modelled.
- RegisterWorker: in the dispatcher, telemetry other than the inventory is taken as already validated.
- MeasureTotal: the ledger constructor's copying, sorting and component checks precede it and are not modelled.
- WorkerPool: unregistering and listing timed-out workers.
- CheckpointStore: the copying of payloads in and out, which keeps callers from aliasing stored ones.
- ValidateSegments: only the topology and index issues; byte sizes, digests, locators, memory fields and artifact components add independent field checks. Order and repetition of issues are not stated, only which are raised.
- Serialize: the header's JSON text is an abstract codec that decodes what it encodes; measuring transfer durations uses floating-point rounding and is not modelled.
- `coordinator.ts`, the feasibility, evidence and prototype files, the deployed services and the import of generated manifests: thin wrappers, reports or network clients.
