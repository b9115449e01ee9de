/**
 * The coordinator's stretches as they run: step by step over the repository,
 * the lease manager and the registry. Each is proved to write exactly what
 * its description in `Steps` says, in that order, and to decide the same.
 */
module DurableCoordinators {
  import opened Options
  import opened RequestStages
  import opened DurableTypes
  import opened Store
  import opened Steps
  import opened Effects
  import opened StepSafety
  import opened InMemoryRepositories
  import opened LeaseManagers
  import opened WorkerRegistries
  import opened Listings

  lemma NothingReplays(s: Store)
    ensures Replay(s, []) == s
  {}

  lemma ListsByLeases(s: Store, t: Store, worker: WorkerId, generation: Generation, ids: seq<LeaseId>)
    requires s.leases == t.leases && Lists(t, worker, generation, ids)
    ensures Lists(s, worker, generation, ids)
  {
    forall x ensures HoldsLease(s, worker, generation, x) == HoldsLease(t, worker, generation, x) {}
  }

  lemma FewerStayUnique(m: map<WorkerId, Worker>, n: map<WorkerId, Worker>)
    requires UniqueWorkers(m) && Within(n, m)
    ensures UniqueWorkers(n)
  {}

  /** Dropping a checkpoint changes nothing a finalisation looks at. */
  lemma DropReads(s: Store, id: RequestId, segment: nat)
    ensures forall stage, code :: Finalize(Apply(s, Checkpoints(DeleteCheckpoint(id, segment))), id, stage, code)
                                  == Finalize(s, id, stage, code)
  {}

  lemma SameCheckpoints(s: Store, t: Store, cfg: Config, id: RequestId, segment: nat, now: nat)
    requires s.checkpoints == t.checkpoints
    ensures PredecessorUsable(s, cfg, id, segment, now) == PredecessorUsable(t, cfg, id, segment, now)
    ensures DropExpired(s, cfg, id, segment) == DropExpired(t, cfg, id, segment)
  {}

  lemma SameWorkers(s: Store, t: Store, requiredVramMB: nat, pick: Option<WorkerId>)
    requires s.workers == t.workers && Picked(t, requiredVramMB, pick)
    ensures Picked(s, requiredVramMB, pick)
    ensures pick.Some? ==> pick.value in s.workers
  {}

  /** Marks depend on which generations are stored, and on nothing else. */
  lemma SameMarks(s: Store, t: Store, x: WorkerId, g: Generation)
    requires SameGenerations(s.workers, t.workers)
    ensures MarkDisconnected(t, x, g) == MarkDisconnected(s, x, g)
  {}

  lemma SameGenerationsStayUnique(m: map<WorkerId, Worker>, n: map<WorkerId, Worker>)
    requires UniqueWorkers(m) && SameGenerations(m, n)
    ensures UniqueWorkers(n)
  {}

  lemma IdleThenIsolate(s: Store, id: Identity, ids: seq<LeaseId>)
    ensures var idle := MarkIdle(s, id.workerId, id.generation);
            var isolate := Isolate(Replay(s, idle), id.workerId, id.generation, ids);
            Replay(s, idle + isolate) == Replay(Replay(s, idle), isolate)
  {
    ReplayAppend(s, MarkIdle(s, id.workerId, id.generation),
                 Isolate(Replay(s, MarkIdle(s, id.workerId, id.generation)), id.workerId, id.generation, ids));
  }

  class DurableCoordinator {
    const cfg: Config
    const repo: InMemoryRepository
    const leases: LeaseManager
    const registry: WorkerRegistry

    constructor (cfg: Config, repo: InMemoryRepository)
      requires repo.Valid() && UniqueWorkers(repo.workers)
      ensures this.cfg == cfg && this.repo == repo && Valid()
      ensures fresh(registry)
    {
      this.cfg := cfg;
      this.repo := repo;
      leases := new LeaseManager(repo);
      registry := new WorkerRegistry(repo);
    }

    ghost predicate Valid()
      reads repo, registry
    {
      && leases.store == repo && registry.store == repo
      && registry.Valid()
      && repo.Valid()
      && UniqueWorkers(repo.workers)
    }

    // --- Shared stretches ---

    /** The closing edge, the error that caused it, and the checkpoints. */
    method CloseStage(id: RequestId, current: Stage, stage: Stage, code: ErrorCode)
      requires repo.Valid() && InStage(repo.requestRecords, id, current)
      modifies repo`requestRecords, repo`checkpoints, repo`slots, repo`log
      ensures Wrote(repo, [Requests(Transition(id, current, stage))] + SetErrorIfFailed(id, stage, code)
                          + [Checkpoints(DeleteCheckpoints(id))])
    {
      hide InMemoryRepository.Valid, Apply;
      var _ := repo.TransitionStage(id, current, stage);
      if stage == Failed {
        repo.SetError(id, code);
      }
      repo.DeleteCheckpointsForRequest(id);
    }

    method FinalizeStage(id: RequestId, stage: Stage, code: ErrorCode)
      requires leases.store == repo && repo.Valid()
      modifies repo`requestRecords, repo`checkpoints, repo`slots, repo`activeLeases, repo`log
      ensures Wrote(repo, Finalize(old(repo.Model()), id, stage, code))
    {
      hide InMemoryRepository.Valid, Apply;
      if id !in repo.requestRecords { return; }
      var current := repo.requestRecords[id].stage;
      if Terminal(current) || !Legal(current, stage) { return; }
      CloseStage(id, current, stage, code);
      leases.ReclaimByRequest(id);
    }

    method IsolateWorker(worker: WorkerId, generation: Generation, now: nat) returns (ghost ids: seq<LeaseId>)
      requires Valid()
      modifies registry, repo`workers, repo`activeLeases, repo`log
      ensures Valid()
      ensures Lists(old(repo.Model()), worker, generation, ids)
      ensures Wrote(repo, Isolate(old(repo.Model()), worker, generation, ids))
    {
      hide InMemoryRepository.Valid, Apply, Replay, UniqueWorkers, Lists, RevokeWorker, DeleteLeases, KnowsGeneration;
      ghost var s := repo.Model();
      ids := ListingExists(s, worker, generation);
      var record := registry.GetByGeneration(generation);
      if record.Some? && record.value.stage != Revoked {
        registry.RevokeGeneration(worker, generation, now);
        ghost var t := repo.Model();
        FewerStayUnique(s.workers, t.workers);
        ids := leases.ReclaimByWorkerGeneration(worker, generation);
        ListsByLeases(s, t, worker, generation, ids);
      }
    }

    method AcknowledgeCancellation(id: RequestId, now: nat)
      requires repo.Valid()
      requires id in repo.cancellations ==> repo.cancellations[id].requestId == id
      modifies repo`cancellations, repo`log
      ensures Wrote(repo, Acknowledge(old(repo.Model()), id, now))
    {
      hide InMemoryRepository.Valid, Apply;
      if id in repo.cancellations && repo.cancellations[id].acknowledgedAt.None?
         && id in repo.requestRecords && repo.requestRecords[id].stage == Cancelled && id !in repo.activeLeases {
        repo.PutCancellation(id, repo.cancellations[id].(acknowledgedAt := Some(now)));
      }
    }

    // --- Submission ---

    method SubmitRequest(key: Option<IdempotencyKey>, newId: RequestId, now: nat, timeoutMs: Option<nat>)
      returns (outcome: SubmitOutcome)
      requires repo.Valid()
      modifies repo`idempotencyMappings, repo`requestRecords, repo`log
      ensures Wrote(repo, Submit(cfg, old(repo.Model()), key, newId, now, timeoutMs).ops)
      ensures outcome == Submit(cfg, old(repo.Model()), key, newId, now, timeoutMs).out
      ensures old(Valid()) ==> Valid()
    {
      hide InMemoryRepository.Valid, Apply;
      if key.Some? {
        if key.value in repo.idempotencyMappings { return Existing(repo.idempotencyMappings[key.value]); }
        var _ := repo.PutIdempotencyMapping(key.value, newId);
      }
      repo.CreateRequest(NewRequest(cfg, newId, now, timeoutMs));
      var _ := repo.TransitionStage(newId, Accepted, Queued);
      return Started(newId);
    }

    // --- Dispatching one attempt ---

    /** Queued to leased to running, and the worker is busy; or the claim fails and nothing happens. */
    method StartRunning(x: Worker, id: RequestId, segment: nat) returns (ok: bool)
      requires registry.store == repo && repo.Valid()
      modifies repo`requestRecords, repo`workers, repo`log
      ensures SameGenerations(old(repo.workers), repo.workers)
      ensures ok == InStage(old(repo.requestRecords), id, Queued)
      ensures Wrote(repo, if ok
                          then [Requests(Transition(id, Queued, Leased)), Requests(Transition(id, Leased, Running))]
                               + Mark(old(repo.Model()), x.id, x.generation, Busy, Some(segment))
                          else [])
    {
      hide InMemoryRepository.Valid, Apply;
      ok := repo.TransitionStage(id, Queued, Leased);
      if ok {
        var _ := repo.TransitionStage(id, Leased, Running);
        registry.MarkAs(x.id, x.generation, Busy, Some(segment));
      }
    }

    /** Lease first, then the claim of the queued request; the lease stays if that fails. */
    method AssignTo(x: Worker, id: RequestId, segment: nat, previous: Option<Checkpoint>,
                    attemptId: AttemptId, lease: LeaseId, now: nat) returns (turn: Turn)
      requires leases.store == repo && registry.store == repo && repo.Valid()
      requires forall r :: r in repo.activeLeases ==> repo.activeLeases[r].leaseId != lease
      requires previous == if segment > 0 && (id, segment - 1) in repo.slots then Some(repo.slots[(id, segment - 1)])
               else None
      modifies repo`activeLeases, repo`attempts, repo`requestRecords, repo`workers, repo`log
      ensures SameGenerations(old(repo.workers), repo.workers)
      ensures Wrote(repo, Assign(cfg, old(repo.Model()), id, segment, x, attemptId, lease, now).ops)
      ensures turn == Assign(cfg, old(repo.Model()), id, segment, x, attemptId, lease, now).out
    {
      hide InMemoryRepository.Valid, Apply;
      var issued := Issue(cfg, x, id, segment, attemptId, lease, now);
      leases.SetActive(issued);
      repo.AppendAttempt(AttemptOf(issued));
      var started := StartRunning(x, id, segment);
      if !started { return Throw(StateTransitionViolation); }
      assert repo.log == old(repo.log) + Assign(cfg, old(repo.Model()), id, segment, x, attemptId, lease, now).ops;
      return Execute(Assignment(IdentityOf(issued), cfg.manifestDigest, previous));
    }

    method RequeueWaiting(id: RequestId)
      requires repo.Valid()
      modifies repo`requestRecords, repo`log
      ensures Wrote(repo, Requeue(old(repo.Model()), id))
    {
      hide InMemoryRepository.Valid, Apply;
      if id in repo.requestRecords && repo.requestRecords[id].stage == RetryWait {
        var _ := repo.TransitionStage(id, RetryWait, Queued);
      }
    }

    /** The checkpoint this segment starts from, or the request is failed for want of one. */
    method TakePredecessor(id: RequestId, segment: nat, now: nat) returns (ok: bool, previous: Option<Checkpoint>)
      requires leases.store == repo && repo.Valid()
      modifies repo`requestRecords, repo`checkpoints, repo`slots, repo`activeLeases, repo`log
      ensures ok == PredecessorUsable(old(repo.Model()), cfg, id, segment, now)
      ensures ok ==> repo.requestRecords == old(repo.requestRecords) && repo.slots == old(repo.slots)
                     && repo.activeLeases == old(repo.activeLeases)
      ensures ok ==> previous == if segment > 0 && (id, segment - 1) in repo.slots
              then Some(repo.slots[(id, segment - 1)]) else None
      ensures Wrote(repo, if ok then []
                          else DropExpired(old(repo.Model()), cfg, id, segment)
                               + Finalize(old(repo.Model()), id, Failed, CheckpointIntegrityMismatch))
    {
      hide InMemoryRepository.Valid, Finalize;
      if segment == 0 { return true, None; }
      previous := repo.GetCheckpoint(id, segment - 1);
      if previous.None? || previous.value.requestId != id || previous.value.segment != segment - 1
         || previous.value.manifestDigest != cfg.manifestDigest {
        FinalizeStage(id, Failed, CheckpointIntegrityMismatch);
        return false, None;
      }
      if Expired(previous.value, now) {
        DropReads(repo.Model(), id, segment - 1);
        repo.DeleteCheckpoint(id, segment - 1);
        FinalizeStage(id, Failed, CheckpointIntegrityMismatch);
        return false, None;
      }
      return true, previous;
    }

    /** Queue a waiting request again, take the predecessor, pick a worker and assign. */
    method DispatchOpen(id: RequestId, segment: nat, attempt: nat, attemptId: AttemptId, lease: LeaseId, now: nat)
      returns (turn: Turn, ghost pick: Option<WorkerId>)
      requires Valid() && segment < |cfg.segmentVramMB| && attempt <= cfg.maxRetries
      requires id in repo.requestRecords && !Terminal(repo.requestRecords[id].stage) && id !in repo.cancellations
      requires forall r :: r in repo.activeLeases ==> repo.activeLeases[r].leaseId != lease
      modifies repo`requestRecords, repo`checkpoints, repo`slots, repo`activeLeases, repo`attempts, repo`workers,
               repo`log
      ensures Valid()
      ensures Picked(old(repo.Model()), cfg.segmentVramMB[segment], pick)
      ensures pick.Some? ==> pick.value in old(repo.workers)
      ensures Wrote(repo, Dispatch(cfg, old(repo.Model()), id, segment, attempt, false, pick, attemptId, lease,
                                   now).ops)
      ensures turn == Dispatch(cfg, old(repo.Model()), id, segment, attempt, false, pick, attemptId, lease, now).out
    {
      hide InMemoryRepository.Valid, Apply, Replay, Assign, Finalize, Requeue, PredecessorUsable, DropExpired,
           UniqueWorkers, SameGenerations,
           Picked, BestIdle, WorkerRegistry.Valid, Terminal;
      pick := PickExists(repo.Model(), cfg.segmentVramMB[segment]);
      PickIsStored(repo.Model(), cfg.segmentVramMB[segment], pick);
      ghost var s, l := repo.Model(), repo.log;
      Accounted(repo);
      RequeueWaiting(id);
      LogDetermines(repo, s, l, Requeue(s, id));
      SameCheckpoints(s, repo.Model(), cfg, id, segment, now);
      var ok, previous := TakePredecessor(id, segment, now);
      if !ok {
        assert repo.log == l + (Requeue(s, id) + DropExpired(s, cfg, id, segment)
                                + Finalize(Replay(s, Requeue(s, id)), id, Failed, CheckpointIntegrityMismatch));
        return ReturnNull, pick;
      }
      var found := registry.GetAvailableWorker(cfg.segmentVramMB[segment]);
      pick := found;
      SameWorkers(s, repo.Model(), cfg.segmentVramMB[segment], pick);
      if found.None? {
        if attempt < cfg.maxRetries { return Sleep, pick; }
        FinalizeStage(id, Failed, WorkerDisconnected);
        return ReturnNull, pick;
      }
      ghost var workers := repo.workers;
      turn := AssignTo(repo.workers[found.value], id, segment, previous, attemptId, lease, now);
      SameGenerationsStayUnique(workers, repo.workers);
    }

    /** Top of the attempt loop, up to the call of the executor. */
    method DispatchAttempt(id: RequestId, segment: nat, attempt: nat, aborted: bool,
                           attemptId: AttemptId, lease: LeaseId, now: nat)
      returns (turn: Turn, ghost pick: Option<WorkerId>)
      requires Valid() && segment < |cfg.segmentVramMB|
      requires forall r :: r in repo.activeLeases ==> repo.activeLeases[r].leaseId != lease
      modifies repo`requestRecords, repo`checkpoints, repo`slots, repo`activeLeases, repo`attempts, repo`workers,
               repo`log
      ensures Valid()
      ensures Picked(old(repo.Model()), cfg.segmentVramMB[segment], pick)
      ensures pick.Some? ==> pick.value in old(repo.workers)
      ensures Wrote(repo, Dispatch(cfg, old(repo.Model()), id, segment, attempt, aborted, pick, attemptId, lease,
                                   now).ops)
      ensures turn == Dispatch(cfg, old(repo.Model()), id, segment, attempt, aborted, pick, attemptId, lease, now).out
    {
      hide InMemoryRepository.Valid, Apply, Replay, Assign, Finalize, Requeue, PredecessorUsable, DropExpired,
           UniqueWorkers,
           Picked, WorkerRegistry.Valid, Terminal;
      pick := PickExists(repo.Model(), cfg.segmentVramMB[segment]);
      PickIsStored(repo.Model(), cfg.segmentVramMB[segment], pick);
      if attempt > cfg.maxRetries { return ReturnNull, pick; }
      if aborted { return Throw(UserCancellation), pick; }
      if id !in repo.requestRecords || Terminal(repo.requestRecords[id].stage) { return ReturnNull, pick; }
      if id in repo.cancellations {
        FinalizeStage(id, Cancelled, UserCancellation);
        return ReturnNull, pick;
      }
      turn, pick := DispatchOpen(id, segment, attempt, attemptId, lease, now);
    }

    // --- Accepting a result ---

    /** The final segment: commit once, give the lease back, and tidy up if the commit was this one. */
    method CompleteRequest(id: Identity, total: nat, tokens: seq<nat>, text: string) returns (acceptance: Acceptance)
      requires leases.store == repo && repo.Valid()
      modifies repo`requestRecords, repo`results, repo`checkpoints, repo`slots, repo`activeLeases, repo`attempts,
               repo`log
      ensures Wrote(repo, Complete(old(repo.Model()), id, total, tokens, text).ops)
      ensures Settled(acceptance) == Complete(old(repo.Model()), id, total, tokens, text).out
    {
      hide InMemoryRepository.Valid, Apply;
      var r := id.requestId;
      var answer := repo.CommitCompletion(r, Running, Result(r, tokens, text, total));
      leases.ReclaimByRequest(r);
      match answer
      case Committed =>
        repo.UpdateAttempt(r, id.attemptId, AttemptCompleted, None);
        repo.DeleteCheckpointsForRequest(r);
        assert repo.log == old(repo.log) + Complete(old(repo.Model()), id, total, tokens, text).ops;
        return AcceptedFinal;
      case DuplicateResult => return Duplicate;
      case StageConflict => return ProtocolError;
    }

    /** Everything up to the integrity check of the checkpoint, which is awaited. */
    method AcceptResult(result: WorkerResult, now: nat) returns (entry: Entry, ghost ids: seq<LeaseId>)
      requires Valid()
      modifies registry, repo`requestRecords, repo`results, repo`checkpoints, repo`slots, repo`activeLeases,
               repo`attempts, repo`workers, repo`log
      ensures Valid()
      ensures result.WorkerResult? ==>
                Lists(old(repo.Model()), result.identity.workerId, result.identity.generation, ids)
      ensures Wrote(repo, AcceptEntry(cfg, old(repo.Model()), result, now, ids).ops)
      ensures entry == AcceptEntry(cfg, old(repo.Model()), result, now, ids).out
    {
      hide InMemoryRepository.Valid, Apply, Replay, Finalize, Isolate, Complete, Match, UniqueWorkers, Lists;
      ids := [];
      if result.BadEnvelope? { return Settled(ProtocolError), []; }
      var id := result.identity;
      var r := id.requestId;
      ids := ListingExists(repo.Model(), id.workerId, id.generation);
      if r !in repo.requestRecords { return Settled(ProtocolError), ids; }
      if r in repo.cancellations || repo.requestRecords[r].stage == Cancelled {
        FinalizeStage(r, Cancelled, UserCancellation);
        return Settled(AcceptCancelled), ids;
      }
      var mismatch := leases.MatchIdentity(id, now);
      if mismatch.Some? { return Settled(IdentityMismatch(mismatch.value)), ids; }
      var total: int := repo.requestRecords[r].totalSegments;
      if id.segment as int == total - 1 {
        match result.produced
        case NoOutput => return Settled(OutputMissing), ids;
        case BadOutput => return Settled(ProtocolError), ids;
        case Output(tokens, text) =>
          var acceptance := CompleteRequest(id, total, tokens, text);
          return Settled(acceptance), ids;
      }
      match result.relayed
      case NoCheckpoint => return Settled(ProtocolError), ids;
      case BadCheckpoint =>
        ids := IsolateWorker(id.workerId, id.generation, now);
        return Settled(CheckpointRejected), ids;
      case Envelope(c) =>
        if |c.payload| > cfg.maxCheckpointBytes {
          ids := IsolateWorker(id.workerId, id.generation, now);
          return Settled(CheckpointRejected), ids;
        }
        return Validate(id, c), ids;
    }

    /** Store the checkpoint, close the attempt, and give the lease back by compare-and-delete. */
    method StoreRelay(id: Identity, c: Checkpoint, commitNow: nat) returns (acceptance: Acceptance)
      requires leases.store == repo && repo.Valid()
      requires c.requestId == id.requestId && c.segment == id.segment
      requires (c.requestId, c.segment) in repo.slots ==>
                 repo.slots[(c.requestId, c.segment)].payloadDigest == c.payloadDigest
      modifies repo`checkpoints, repo`slots, repo`attempts, repo`activeLeases, repo`log
      ensures var mismatch := Match(old(repo.Model()), id, commitNow);
              && acceptance == (if mismatch.Some? then IdentityMismatch(mismatch.value) else AcceptedCheckpoint(c))
              && Wrote(repo, Relay(id, c) + (if mismatch.Some? then [] else [Leases(DeleteLease(id.leaseId))]))
    {
      hide InMemoryRepository.Valid, Apply, Replay;
      var _ := repo.PutCheckpoint(c);
      repo.UpdateAttempt(id.requestId, id.attemptId, AttemptCompleted, None);
      var mismatch := leases.ReclaimExact(id, commitNow);
      if mismatch.Some? { return IdentityMismatch(mismatch.value); }
      return AcceptedCheckpoint(c);
    }

    /** After the await: everything is checked again before the checkpoint is stored. */
    method CommitRelay(id: Identity, c: Checkpoint, entered: nat, intact: bool, now: nat)
      returns (acceptance: Acceptance, ghost ids: seq<LeaseId>)
      requires Valid()
      modifies registry, repo`requestRecords, repo`checkpoints, repo`slots, repo`activeLeases, repo`attempts,
               repo`workers, repo`log
      ensures Valid()
      ensures Lists(old(repo.Model()), id.workerId, id.generation, ids)
      ensures Wrote(repo, AcceptCommit(cfg, old(repo.Model()), id, c, entered, intact, now, ids).ops)
      ensures acceptance == AcceptCommit(cfg, old(repo.Model()), id, c, entered, intact, now, ids).out
    {
      hide InMemoryRepository.Valid, Apply, Replay, Finalize, Isolate, Match, UniqueWorkers, Lists, Relay;
      ids := ListingExists(repo.Model(), id.workerId, id.generation);
      var r := id.requestId;
      if !EnvelopeMatches(cfg, id, c, entered) || !intact {
        ids := IsolateWorker(id.workerId, id.generation, now);
        return CheckpointRejected, ids;
      }
      var commitNow := Max(entered, now);
      if r in repo.cancellations {
        FinalizeStage(r, Cancelled, UserCancellation);
        return AcceptCancelled, ids;
      }
      var mismatch := leases.MatchIdentity(id, commitNow);
      if mismatch.Some? { return IdentityMismatch(mismatch.value), ids; }
      if r !in repo.requestRecords || repo.requestRecords[r].stage != Running { return ProtocolError, ids; }
      if Expired(c, commitNow) { return CheckpointRejected, ids; }
      ReclaimStillMatches(repo.Model(), id, c, commitNow);
      var existing := repo.GetCheckpoint(r, id.segment);
      if existing.Some? && existing.value.payloadDigest != c.payloadDigest {
        ids := IsolateWorker(id.workerId, id.generation, now);
        return CheckpointConflict, ids;
      }
      acceptance := StoreRelay(id, c, commitNow);
    }

    // --- After the executor settled ---

    method SettleAttempt(id: Identity, code: ErrorCode)
      requires leases.store == repo && registry.store == repo && repo.Valid()
      modifies repo`activeLeases, repo`attempts, repo`workers, repo`log
      ensures Wrote(repo, SettleFailure(old(repo.Model()), id, code))
      ensures SameGenerations(old(repo.workers), repo.workers)
    {
      hide InMemoryRepository.Valid, Apply;
      registry.MarkWorkerIdle(id.workerId, id.generation);
      leases.ReclaimByRequest(id.requestId);
      repo.UpdateAttempt(id.requestId, id.attemptId, AttemptFailed, Some(code));
    }

    /** The handler for an execution that threw, or whose continuation did. */
    method RecoverFrom(a: Assignment, code: ErrorCode, aborted: bool) returns (turn: Turn)
      requires Valid()
      modifies repo`requestRecords, repo`checkpoints, repo`slots, repo`activeLeases, repo`attempts, repo`workers,
               repo`log
      ensures Valid()
      ensures Wrote(repo, Recover(cfg, old(repo.Model()), a, code, aborted).ops)
      ensures turn == Recover(cfg, old(repo.Model()), a, code, aborted).out
    {
      hide InMemoryRepository.Valid, Apply, Replay, Finalize, SettleFailure, UniqueWorkers, MarkDisconnected,
           SameGenerations, Retryable, Isolatable, WorkerRegistry.Valid;
      var id := a.identity;
      var r := id.requestId;
      if aborted {
        registry.MarkWorkerIdle(id.workerId, id.generation);
        SameGenerationsStayUnique(old(repo.workers), repo.workers);
        return Throw(code);
      }
      ghost var s, l := repo.Model(), repo.log;
      Accounted(repo);
      SettleAttempt(id, code);
      SameGenerationsStayUnique(old(repo.workers), repo.workers);
      LogDetermines(repo, s, l, SettleFailure(s, id, code));
      if Retryable(code) && r in repo.requestRecords && repo.requestRecords[r].retryCount < cfg.maxRetries {
        SameMarks(s, repo.Model(), id.workerId, id.generation);
        ghost var workers := repo.workers;
        turn := RetryAfter(id, code);
        SameGenerationsStayUnique(workers, repo.workers);
        assert repo.log == l + Recover(cfg, s, a, code, aborted).ops;
      } else {
        FinalizeStage(r, Failed, code);
        turn := ReturnNull;
      }
    }

    /** A worker at fault is taken out of the choice before the retry is counted. */
    method RetryAfter(id: Identity, code: ErrorCode) returns (turn: Turn)
      requires registry.store == repo && repo.Valid() && id.requestId in repo.requestRecords
      modifies repo`requestRecords, repo`workers, repo`log
      ensures turn == if old(repo.requestRecords)[id.requestId].stage == Running then Sleep
              else Throw(StateTransitionViolation)
      ensures SameGenerations(old(repo.workers), repo.workers)
      ensures Wrote(repo, (if Isolatable(code) then MarkDisconnected(old(repo.Model()), id.workerId, id.generation)
                           else [])
                          + ([Requests(SetRetryCount(id.requestId,
                                                     old(repo.requestRecords)[id.requestId].retryCount + 1))]
                             + (if turn.Sleep? then [Requests(Transition(id.requestId, Running, RetryWait))] else [])))
    {
      hide InMemoryRepository.Valid, Apply, Mark;
      if Isolatable(code) {
        registry.MarkWorkerDisconnected(id.workerId, id.generation);
      }
      turn := WaitForRetry(id.requestId);
    }

    /** Count the retry, then wait for it. */
    method WaitForRetry(id: RequestId) returns (turn: Turn)
      requires repo.Valid() && id in repo.requestRecords
      modifies repo`requestRecords, repo`log
      ensures turn == if old(repo.requestRecords)[id].stage == Running then Sleep else Throw(StateTransitionViolation)
      ensures Wrote(repo, [Requests(SetRetryCount(id, old(repo.requestRecords)[id].retryCount + 1))]
                          + (if turn.Sleep? then [Requests(Transition(id, Running, RetryWait))] else []))
    {
      hide InMemoryRepository.Valid;
      repo.SetRetryCount(id, repo.requestRecords[id].retryCount + 1);
      var ok := repo.TransitionStage(id, Running, RetryWait);
      return if ok then Sleep else Throw(StateTransitionViolation);
    }

    /** The result was refused: isolate by the assignment, close the attempt, fail the request. */
    method RefuseResult(a: Assignment, acceptance: Acceptance, now: nat) returns (ghost ids: seq<LeaseId>)
      requires Valid()
      modifies registry, repo`requestRecords, repo`checkpoints, repo`slots, repo`activeLeases, repo`attempts,
               repo`workers, repo`log
      ensures Valid()
      ensures Lists(old(repo.Model()), a.identity.workerId, a.identity.generation, ids)
      ensures var s, id := old(repo.Model()), a.identity;
              var isolated := Isolate(s, id.workerId, id.generation, ids);
              var code := AcceptanceCode(acceptance);
              Wrote(repo, isolated
                    + [Bookkeeping(UpdateAttempt(id.requestId, id.attemptId, AttemptSuppressed, Some(code)))]
                          + Finalize(Replay(s, isolated), id.requestId, Failed, code))
    {
      hide InMemoryRepository.Valid, Apply, Replay, Finalize, Isolate, UniqueWorkers, Lists;
      var id := a.identity;
      ghost var s, l := repo.Model(), repo.log;
      Accounted(repo);
      ids := IsolateWorker(id.workerId, id.generation, now);
      LogDetermines(repo, s, l, Isolate(s, id.workerId, id.generation, ids));
      CloseAttempt(id, AttemptSuppressed, Failed, AcceptanceCode(acceptance));
    }

    /** Close the attempt, then the request. */
    method CloseAttempt(id: Identity, outcome: AttemptOutcome, stage: Stage, code: ErrorCode)
      requires leases.store == repo && repo.Valid()
      modifies repo`requestRecords, repo`checkpoints, repo`slots, repo`activeLeases, repo`attempts, repo`log
      ensures Wrote(repo, [Bookkeeping(UpdateAttempt(id.requestId, id.attemptId, outcome, Some(code)))]
                          + Finalize(old(repo.Model()), id.requestId, stage, code))
    {
      hide InMemoryRepository.Valid, Apply, Finalize;
      ghost var s := repo.Model();
      repo.UpdateAttempt(id.requestId, id.attemptId, outcome, Some(code));
      FinalizeIgnoresBooks(s, repo.Model().books, id.requestId, stage, code);
      assert repo.Model() == s.(books := repo.Model().books);
      FinalizeStage(id.requestId, stage, code);
    }

    /** The next segment is queued, or the run is recovered as after a failure. */
    method RequeueOrRecover(a: Assignment, aborted: bool) returns (turn: Turn)
      requires Valid()
      modifies repo`requestRecords, repo`checkpoints, repo`slots, repo`activeLeases, repo`attempts, repo`workers,
               repo`log
      ensures Valid()
      ensures var ok := InStage(old(repo.requestRecords), a.identity.requestId, Running);
              && Wrote(repo, if ok then [Requests(Transition(a.identity.requestId, Running, Queued))]
                             else Recover(cfg, old(repo.Model()), a, StateTransitionViolation, aborted).ops)
              && turn == (if ok then ReturnResult
                          else Recover(cfg, old(repo.Model()), a, StateTransitionViolation, aborted).out)
    {
      hide InMemoryRepository.Valid, Apply, Recover, UniqueWorkers;
      var ok := repo.TransitionStage(a.identity.requestId, Running, Queued);
      if ok { return ReturnResult; }
      turn := RecoverFrom(a, StateTransitionViolation, aborted);
    }

    /** What the answer asks for, once the worker is idle again; `s` is the store before that. */
    method FollowAnswer(a: Assignment, acceptance: Acceptance, aborted: bool, now: nat, ghost s: Store)
      returns (turn: Turn, ghost ids: seq<LeaseId>, ghost ops: seq<Op>)
      requires Valid()
      requires repo.Model() == Replay(s, MarkIdle(s, a.identity.workerId, a.identity.generation))
      requires repo.Model().requests == s.requests && repo.Model().leases == s.leases
      modifies registry, repo`requestRecords, repo`checkpoints, repo`slots, repo`activeLeases, repo`attempts,
               repo`workers, repo`log
      ensures Valid() && Lists(s, a.identity.workerId, a.identity.generation, ids)
      ensures Wrote(repo, ops)
      ensures MarkIdle(s, a.identity.workerId, a.identity.generation) + ops
              == Continue(cfg, s, a, acceptance, aborted, ids).ops
      ensures turn == Continue(cfg, s, a, acceptance, aborted, ids).out
    {
      hide InMemoryRepository.Valid, Apply, Replay, Finalize, Isolate, UniqueWorkers, Lists, Recover, MarkIdle,
           AcceptanceCode;
      ops := [];
      ghost var t := repo.Model();
      var id := a.identity;
      ids := ListingExists(s, id.workerId, id.generation);
      match acceptance {
        case AcceptedFinal => turn := ReturnResult;
        case Duplicate => turn := ReturnResult;
        case AcceptedCheckpoint(_) =>
          turn := RequeueOrRecover(a, aborted);
          ops := if InStage(s.requests, id.requestId, Running)
              then [Requests(Transition(id.requestId, Running, Queued))]
                 else Recover(cfg, t, a, StateTransitionViolation, aborted).ops;
        case AcceptCancelled =>
          CloseAttempt(id, AttemptCancelled, Cancelled, UserCancellation);
          ops := [Bookkeeping(UpdateAttempt(id.requestId, id.attemptId, AttemptCancelled, Some(UserCancellation)))]
                 + Finalize(t, id.requestId, Cancelled, UserCancellation);
          turn := ReturnNull;
        case _ =>
          ids := RefuseResult(a, acceptance, now);
          ListsByLeases(s, t, id.workerId, id.generation, ids);
          IdleThenIsolate(s, id, ids);
          ghost var isolated := Isolate(t, id.workerId, id.generation, ids);
          ops := isolated
                 + [Bookkeeping(UpdateAttempt(id.requestId, id.attemptId, AttemptSuppressed,
                                              Some(AcceptanceCode(acceptance))))]
                 + Finalize(Replay(t, isolated), id.requestId, Failed, AcceptanceCode(acceptance));
          turn := ReturnNull;
      }
    }

    /** What follows the answer of `AcceptResult`. */
    method ContinueAfter(a: Assignment, acceptance: Acceptance, aborted: bool, now: nat)
      returns (turn: Turn, ghost ids: seq<LeaseId>)
      requires Valid()
      modifies registry, repo`requestRecords, repo`checkpoints, repo`slots, repo`activeLeases, repo`attempts,
               repo`workers, repo`log
      ensures Valid() && Lists(old(repo.Model()), a.identity.workerId, a.identity.generation, ids)
      ensures Wrote(repo, Continue(cfg, old(repo.Model()), a, acceptance, aborted, ids).ops)
      ensures turn == Continue(cfg, old(repo.Model()), a, acceptance, aborted, ids).out
    {
      hide InMemoryRepository.Valid, Apply, Replay, UniqueWorkers, SameGenerations, MarkIdle, Continue, Lists;
      var id := a.identity;
      ghost var s, l := repo.Model(), repo.log;
      Accounted(repo);
      registry.MarkWorkerIdle(id.workerId, id.generation);
      LogDetermines(repo, s, l, MarkIdle(s, id.workerId, id.generation));
      SameGenerationsStayUnique(s.workers, repo.workers);
      ghost var ops: seq<Op>;
      turn, ids, ops := FollowAnswer(a, acceptance, aborted, now, s);
    }

    // --- Between segments, and at the end of a run ---

    method EnterNextSegment(id: RequestId, segment: nat, total: nat, aborted: bool) returns (turn: LoopTurn)
      requires leases.store == repo && repo.Valid()
      modifies repo`requestRecords, repo`checkpoints, repo`slots, repo`activeLeases, repo`log
      ensures Wrote(repo, SegmentHead(old(repo.Model()), id, segment, total, aborted).ops)
      ensures turn == SegmentHead(old(repo.Model()), id, segment, total, aborted).out
      ensures old(Valid()) ==> Valid()
    {
      hide InMemoryRepository.Valid, Finalize;
      if segment >= total { return LeaveLoop; }
      if aborted { return LoopThrow(UserCancellation); }
      if id !in repo.requestRecords || Terminal(repo.requestRecords[id].stage) { return LeaveLoop; }
      if id in repo.cancellations {
        FinalizeStage(id, Cancelled, UserCancellation);
        return LeaveLoop;
      }
      return EnterSegment;
    }

    method LeaveSegment(id: RequestId, segment: nat, got: bool) returns (turn: LoopTurn)
      requires leases.store == repo && repo.Valid()
      modifies repo`requestRecords, repo`checkpoints, repo`slots, repo`activeLeases, repo`streamCursors, repo`log
      ensures Wrote(repo, SegmentTail(old(repo.Model()), id, segment, got).ops)
      ensures turn == SegmentTail(old(repo.Model()), id, segment, got).out
      ensures old(Valid()) ==> Valid()
    {
      hide InMemoryRepository.Valid, Finalize;
      if !got || id !in repo.requestRecords || repo.requestRecords[id].stage == Completed { return LeaveLoop; }
      if repo.requestRecords[id].stage == Cancelled || id in repo.cancellations {
        FinalizeStage(id, Cancelled, UserCancellation);
        return LeaveLoop;
      }
      repo.SetCurrentSegment(id, segment + 1);
      repo.PutStreamCursor(Cursor(id, segment, repo.requestRecords[id].totalSegments));
      return EnterSegment;
    }

    method CloseRun(id: RequestId, thrown: Option<ErrorCode>, kind: AbortKind)
      requires leases.store == repo && repo.Valid()
      modifies repo`requestRecords, repo`checkpoints, repo`slots, repo`activeLeases, repo`log
      ensures Wrote(repo, Closing(old(repo.Model()), id, thrown, kind))
    {
      hide InMemoryRepository.Valid, Finalize;
      if thrown.None? {
        FinalizeStage(id, Failed, RuntimeTransient);
      } else if thrown.value == UserCancellation && kind == ByOwnershipLoss {
        return;
      } else if thrown.value == UserCancellation && kind == ByDeadline {
        FinalizeStage(id, Failed, DeadlineExceeded);
      } else if thrown.value == UserCancellation {
        FinalizeStage(id, Cancelled, UserCancellation);
      } else {
        FinalizeStage(id, Failed, thrown.value);
      }
    }

    /** However the run ended, its request is closed and the cancellation acknowledged. */
    method FinishRun(id: RequestId, thrown: Option<ErrorCode>, kind: AbortKind, now: nat)
      requires leases.store == repo && repo.Valid()
      requires id in repo.cancellations ==> repo.cancellations[id].requestId == id
      modifies repo`requestRecords, repo`checkpoints, repo`slots, repo`activeLeases, repo`cancellations, repo`log
      ensures Wrote(repo, EndRun(old(repo.Model()), id, thrown, kind, now))
      ensures old(Valid()) ==> Valid()
    {
      hide InMemoryRepository.Valid, Apply, Replay, Closing, Acknowledge;
      ghost var s, l := repo.Model(), repo.log;
      Accounted(repo);
      CloseRun(id, thrown, kind);
      LogDetermines(repo, s, l, Closing(s, id, thrown, kind));
      AcknowledgeCancellation(id, now);
    }

    // --- Failure messages, cancellation, workers ---

    /** Close the attempt of a failed execution and give its lease back. */
    method SettleReport(id: Identity, code: ErrorCode)
      requires leases.store == repo && repo.Valid()
      modifies repo`attempts, repo`activeLeases, repo`log
      ensures Wrote(repo, FailureSettled(old(repo.Model()), id, code))
    {
      hide InMemoryRepository.Valid, Apply;
      repo.UpdateAttempt(id.requestId, id.attemptId, AttemptFailed, Some(code));
      leases.ReclaimByRequest(id.requestId);
    }

    method HandleWorkerFailure(id: Identity, code: ErrorCode, now: nat) returns (ghost ids: seq<LeaseId>)
      requires Valid()
      modifies registry, repo`requestRecords, repo`checkpoints, repo`slots, repo`activeLeases, repo`attempts,
               repo`workers, repo`log
      ensures Valid()
      ensures var settled := Replay(old(repo.Model()), FailureSettled(old(repo.Model()), id, code));
              Lists(settled, id.workerId, id.generation, ids)
      ensures Wrote(repo, WorkerFailure(old(repo.Model()), id, code, now, ids))
    {
      hide InMemoryRepository.Valid, Apply, Replay, Finalize, Isolate, Match, UniqueWorkers, Lists, FailureSettled,
           KnowsGeneration;
      ghost var s, l := repo.Model(), repo.log;
      ids := ListingExists(Replay(s, FailureSettled(s, id, code)), id.workerId, id.generation);
      var r := id.requestId;
      if r in repo.cancellations {
        CloseAttempt(id, AttemptCancelled, Cancelled, UserCancellation);
        return ids;
      }
      var mismatch := leases.MatchIdentity(id, now);
      if mismatch.Some? { return ids; }
      Accounted(repo);
      SettleReport(id, code);
      LogDetermines(repo, s, l, FailureSettled(s, id, code));
      if Isolatable(code) {
        ids := IsolateWorker(id.workerId, id.generation, now);
      }
    }

    /** Durable cancellation first, then the request is moved and closed. */
    method BeginCancel(id: RequestId, record: Cancellation)
      requires repo.Valid() && id in repo.requestRecords && record.requestId == id
      modifies repo`cancellations, repo`attempts, repo`requestRecords, repo`log
      ensures Wrote(repo, CancelPrefix(old(repo.Model()), id, record))
    {
      hide InMemoryRepository.Valid, Apply;
      repo.PutCancellation(id, record);
      if id in repo.activeLeases {
        repo.UpdateAttempt(id, repo.activeLeases[id].attemptId, AttemptCancelled, Some(UserCancellation));
      }
      if repo.requestRecords[id].stage == Accepted {
        var _ := repo.TransitionStage(id, Accepted, Queued);
      }
    }

    method StopRequest(id: RequestId, record: Cancellation)
      requires leases.store == repo && repo.Valid() && id in repo.requestRecords && record.requestId == id
      modifies repo`cancellations, repo`attempts, repo`requestRecords, repo`checkpoints, repo`slots, repo`activeLeases,
               repo`log
      ensures var s := old(repo.Model());
              Wrote(repo, CancelPrefix(s, id, record)
                    + Finalize(Replay(s, CancelPrefix(s, id, record)), id, Cancelled, UserCancellation))
    {
      hide InMemoryRepository.Valid, Apply, Replay, Finalize, CancelPrefix;
      ghost var s, l := repo.Model(), repo.log;
      Accounted(repo);
      BeginCancel(id, record);
      LogDetermines(repo, s, l, CancelPrefix(s, id, record));
      FinalizeStage(id, Cancelled, UserCancellation);
    }

    method Cancel(id: RequestId, now: nat, inFlight: bool) returns (disposition: Disposition)
      requires leases.store == repo && repo.Valid()
      requires id in repo.cancellations ==> repo.cancellations[id].requestId == id
      modifies repo`cancellations, repo`attempts, repo`requestRecords, repo`checkpoints, repo`slots, repo`activeLeases,
               repo`log
      ensures Wrote(repo, CancelRequest(cfg, old(repo.Model()), id, now, inFlight).ops)
      ensures disposition == CancelRequest(cfg, old(repo.Model()), id, now, inFlight).out
      ensures old(Valid()) ==> Valid()
    {
      hide InMemoryRepository.Valid, Apply, Replay, Finalize, CancelPrefix;
      if id !in repo.requestRecords { return UnknownRequest; }
      if repo.requestRecords[id].stage == Completed { return AlreadyCompleted; }
      if repo.requestRecords[id].stage == Failed { return AlreadyFailed; }
      var existing := id in repo.cancellations;
      var idle := !existing && !inFlight && id !in repo.activeLeases;
      var record := if existing then repo.cancellations[id] else Cancellation(id, now, cfg.cancelAckDeadlineMs, None);
      StopRequest(id, record);
      if idle {
        repo.PutCancellation(id, record.(acknowledgedAt := Some(now)));
      }
      return if existing then AlreadyCancelled else if idle then CancelledNow else PendingStop;
    }

    method RegisterWorker(worker: WorkerId, tier: nat, vramMB: nat, connection: string, newGeneration: Generation,
                          now: nat)
      returns (outcome: RegisterOutcome, ghost ids: seq<LeaseId>)
      requires Valid()
      modifies registry, repo`activeLeases, repo`workers, repo`log
      ensures NewTo(old(repo.workers), newGeneration) ==> Valid()
      ensures ListsOwn(old(repo.Model()), worker, ids)
      ensures Wrote(repo, Register(cfg, old(repo.Model()), worker, tier, vramMB, connection, newGeneration, now,
                                   ids).ops)
      ensures outcome == Register(cfg, old(repo.Model()), worker, tier, vramMB, connection, newGeneration, now, ids).out
    {
      hide InMemoryRepository.Valid, Apply, Lists, RegistryWrites;
      ghost var s := repo.Model();
      ids := OwnListingExists(s, worker);
      if vramMB < cfg.minimumVramMB { return Refused, ids; }
      outcome := registry.RegisterWith(worker, tier, vramMB, connection, newGeneration, now);
      if outcome.Reconnected? {
        ghost var t := repo.Model();
        ids := leases.ReclaimByWorkerGeneration(worker, outcome.previous);
        ListsByLeases(s, t, worker, outcome.previous, ids);
      }
    }

    method DropWorker(worker: WorkerId, now: nat) returns (ghost ids: seq<LeaseId>)
      requires Valid()
      modifies registry, repo`activeLeases, repo`workers, repo`log
      ensures Wrote(repo, RemoveWorker(old(repo.Model()), worker, ids))
      ensures Valid() && ListsOwn(old(repo.Model()), worker, ids)
    {
      hide InMemoryRepository.Valid, Apply, Replay, Lists, RevokeWorker, DeleteLeases, UniqueWorkers,
           WorkerRegistry.Valid;
      ids := OwnListingExists(repo.Model(), worker);
      if worker in repo.workers {
        ghost var s := repo.Model();
        var generation := repo.workers[worker].generation;
        registry.RevokeGeneration(worker, generation, now);
        ghost var t := repo.Model();
        FewerStayUnique(s.workers, t.workers);
        ids := leases.ReclaimByWorkerGeneration(worker, generation);
        ListsByLeases(s, t, worker, generation, ids);
      }
    }

    /** One worker the heartbeat monitor found silent. */
    method ExpireWorker(worker: WorkerId, timeoutMs: nat, now: nat) returns (ghost ids: seq<LeaseId>)
      requires Valid()
      modifies repo`activeLeases, repo`workers, repo`log
      ensures Wrote(repo, TimeOut(old(repo.Model()), worker, timeoutMs, now, ids))
      ensures Valid() && ListsOwn(old(repo.Model()), worker, ids)
    {
      hide InMemoryRepository.Valid, Apply, Lists, MarkDisconnected, DeleteLeases, UniqueWorkers, SameGenerations;
      ids := OwnListingExists(repo.Model(), worker);
      var silent := registry.ListTimedOut(timeoutMs, now);
      if worker in silent {
        ghost var s := repo.Model();
        var generation := repo.workers[worker].generation;
        registry.MarkWorkerDisconnected(worker, generation);
        ghost var t := repo.Model();
        SameGenerationsStayUnique(s.workers, t.workers);
        ids := leases.ReclaimByWorkerGeneration(worker, generation);
        ListsByLeases(s, t, worker, generation, ids);
      }
    }
  }
}
