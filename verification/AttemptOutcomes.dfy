/**
 * What one execution attempt leaves behind and answers, told by the records and
 * not by the writes: the dispatch, the acceptance of a result before and after
 * the awaited check, and the two ways the attempt goes on. The lists of writes
 * of `Steps` are proved to lead there.
 */
module AttemptOutcomes {
  import opened Options
  import opened RequestStages
  import opened SafeIntegers
  import opened DurableTypes
  import opened Store
  import opened Steps
  import opened Effects
  import opened StoreChanges

  // --- Dispatch ---

  predicate Over(s: Store, id: RequestId) {
    id !in s.requests || s.requests[id].stage in {Completed, Failed, Cancelled}
  }

  /** A dispatch that is not going to look for a worker, and why. */
  lemma DispatchGivesUp(cfg: Config, s: Store, id: RequestId, segment: nat, attempt: nat, aborted: bool,
                        pick: Option<WorkerId>, attemptId: AttemptId, lease: LeaseId, now: nat)
    requires UniqueLeaseIds(s.leases) && (pick.Some? ==> pick.value in s.workers)
    requires attempt > cfg.maxRetries || aborted || Over(s, id) || id in s.cancellations
    ensures var step := Dispatch(cfg, s, id, segment, attempt, aborted, pick, attemptId, lease, now);
            var t := Replay(s, step.ops);
            if attempt > cfg.maxRetries then step.out == ReturnNull && t == s
            else if aborted then step.out == Throw(UserCancellation) && t == s
            else if Over(s, id) then step.out == ReturnNull && t == s
            else step.out == ReturnNull && t == ShutIfOpen(s, id, Cancelled, UserCancellation)
  {
    hide Replay, Apply, Assign, UniqueLeaseIds, CanBeShut, Shut;
    NothingWritten(s);
    if !Over(s, id) {
      FinalizeShuts(s, id, Cancelled, UserCancellation);
    }
  }

  /** The input of a segment: none for the first, for any other the unexpired checkpoint of the one before. */
  predicate InputReady(s: Store, cfg: Config, id: RequestId, segment: nat, now: nat) {
    segment > 0 ==>
      && (id, segment - 1) in s.checkpoints
      && var c := s.checkpoints[(id, segment - 1)];
         && c.requestId == id && c.segment == segment - 1 && c.manifestDigest == cfg.manifestDigest
         && c.createdAt + c.ttlMs <= MAX_SAFE_INTEGER && now < c.createdAt + c.ttlMs
  }

  /** A request that waited for its retry is queued again. */
  function Requeued(s: Store, id: RequestId): Store {
    if id in s.requests && s.requests[id].stage == RetryWait
    then s.(requests := s.requests[id := s.requests[id].(stage := Queued)]) else s
  }

  lemma RequeueRequeues(s: Store, id: RequestId)
    ensures Replay(s, Requeue(s, id)) == Requeued(s, id)
  {
    if id in s.requests && s.requests[id].stage == RetryWait {
      ReplaySingle(s, Requests(Transition(id, RetryWait, Queued)));
    } else {
      NothingWritten(s);
    }
  }

  /** A checkpoint that is the right one but for its age is dropped. */
  function WithoutStale(s: Store, cfg: Config, id: RequestId, segment: nat): Store {
    if segment > 0 && (id, segment - 1) in s.checkpoints
       && var c := s.checkpoints[(id, segment - 1)];
          c.requestId == id && c.segment == segment - 1 && c.manifestDigest == cfg.manifestDigest
    then s.(checkpoints := s.checkpoints - {(id, segment - 1)}) else s
  }

  lemma DropDrops(s: Store, cfg: Config, id: RequestId, segment: nat)
    ensures Replay(s, DropExpired(s, cfg, id, segment)) == WithoutStale(s, cfg, id, segment)
  {
    if DropExpired(s, cfg, id, segment) == [] {
      NothingWritten(s);
    } else {
      ReplaySingle(s, Checkpoints(DeleteCheckpoint(id, segment - 1)));
    }
  }

  /** Without its input the request fails, and an expired input is dropped. */
  lemma DispatchMissesInput(cfg: Config, s: Store, id: RequestId, segment: nat, attempt: nat,
                            pick: Option<WorkerId>, attemptId: AttemptId, lease: LeaseId, now: nat)
    requires UniqueLeaseIds(s.leases) && (pick.Some? ==> pick.value in s.workers)
    requires attempt <= cfg.maxRetries && !Over(s, id) && id !in s.cancellations
    requires !InputReady(s, cfg, id, segment, now)
    ensures var step := Dispatch(cfg, s, id, segment, attempt, false, pick, attemptId, lease, now);
            && step.out == ReturnNull
            && Replay(s, step.ops)
               == ShutIfOpen(WithoutStale(Requeued(s, id), cfg, id, segment), id, Failed, CheckpointIntegrityMismatch)
  {
    hide Replay, Apply, Requeue, DropExpired, Finalize, ShutIfOpen, Dispatch, InputReady, UniqueLeaseIds;
    var requeue, drop := Requeue(s, id), DropExpired(s, cfg, id, segment);
    var s1 := Requeued(s, id);
    var s2 := WithoutStale(s1, cfg, id, segment);
    RequeueRequeues(s, id);
    DropsAlike(s, s1, cfg, id, segment);
    DropDrops(s1, cfg, id, segment);
    var close := Finalize(s1, id, Failed, CheckpointIntegrityMismatch);
    FinalizesAlike(s1, s2, id, Failed, CheckpointIntegrityMismatch);
    assert UniqueLeaseIds(s2.leases);
    FinalizeShuts(s2, id, Failed, CheckpointIntegrityMismatch);
    ReplayAppend(s, requeue, drop);
    ReplayAppend(s, requeue + drop, close);
    DispatchFails(cfg, s, id, segment, attempt, pick, attemptId, lease, now);
  }

  lemma FinalizesAlike(s: Store, t: Store, id: RequestId, stage: Stage, code: ErrorCode)
    requires s.requests == t.requests && s.leases == t.leases
    ensures Finalize(s, id, stage, code) == Finalize(t, id, stage, code)
  {}

  lemma DropsAlike(s: Store, s1: Store, cfg: Config, id: RequestId, segment: nat)
    requires s1.checkpoints == s.checkpoints
    ensures DropExpired(s, cfg, id, segment) == DropExpired(s1, cfg, id, segment)
  {}

  lemma DispatchFails(cfg: Config, s: Store, id: RequestId, segment: nat, attempt: nat,
                      pick: Option<WorkerId>, attemptId: AttemptId, lease: LeaseId, now: nat)
    requires pick.Some? ==> pick.value in s.workers
    requires attempt <= cfg.maxRetries && !Over(s, id) && id !in s.cancellations
    requires !InputReady(s, cfg, id, segment, now)
    ensures Dispatch(cfg, s, id, segment, attempt, false, pick, attemptId, lease, now)
         == Step(Requeue(s, id) + DropExpired(s, cfg, id, segment)
                 + Finalize(Requeued(s, id), id, Failed, CheckpointIntegrityMismatch), ReturnNull)
  {
    hide Replay, Apply, Assign, Requeue, DropExpired, Finalize;
    RequeueRequeues(s, id);
  }

  /** Without a worker the run sleeps while it has an attempt left, and otherwise the request fails. */
  lemma DispatchFindsNoWorker(cfg: Config, s: Store, id: RequestId, segment: nat, attempt: nat,
                              attemptId: AttemptId, lease: LeaseId, now: nat)
    requires UniqueLeaseIds(s.leases)
    requires attempt <= cfg.maxRetries && !Over(s, id) && id !in s.cancellations
    requires InputReady(s, cfg, id, segment, now)
    ensures var step := Dispatch(cfg, s, id, segment, attempt, false, None, attemptId, lease, now);
            var t := Replay(s, step.ops);
            if attempt < cfg.maxRetries then step.out == Sleep && t == Requeued(s, id)
            else step.out == ReturnNull && t == ShutIfOpen(Requeued(s, id), id, Failed, WorkerDisconnected)
  {
    hide Replay, Apply, Assign, UniqueLeaseIds, Requeue, DropExpired, Finalize, ShutIfOpen;
    RequeueRequeues(s, id);
    var close := Finalize(Requeued(s, id), id, Failed, WorkerDisconnected);
    FinalizeShuts(Requeued(s, id), id, Failed, WorkerDisconnected);
    ReplayAppend(s, Requeue(s, id), close);
  }

  /** The lease is the request's live one, and its attempt is the last of the request. */
  function WithLease(s: Store, l: Lease): Store {
    var before := if l.requestId in s.books.attempts then s.books.attempts[l.requestId] else [];
    var attempt := Attempt(l.requestId, l.attemptId, l.leaseId, l.workerId, l.generation, l.segment, None, None);
    s.(leases := s.leases[l.requestId := l],
       books := s.books.(attempts := s.books.attempts[l.requestId := before + [attempt]]))
  }

  /**
   * With its input and a worker the attempt gets a lease. If the request was queued
   * or waited for its retry, it runs, the worker is busy with the segment, and the
   * executor is handed the lease's identity, the configured manifest and the very
   * checkpoint of the segment before.
   */
  lemma DispatchHandsOver(cfg: Config, s: Store, id: RequestId, segment: nat, attempt: nat,
                          x: WorkerId, attemptId: AttemptId, lease: LeaseId, now: nat)
    requires attempt <= cfg.maxRetries && !Over(s, id) && id !in s.cancellations
    requires InputReady(s, cfg, id, segment, now) && x in s.workers && s.workers[x].id == x
    ensures var step := Dispatch(cfg, s, id, segment, attempt, false, Some(x), attemptId, lease, now);
            var t := Replay(s, step.ops);
            var g := s.workers[x].generation;
            var l := Lease(lease, id, attemptId, x, g, segment, cfg.manifestDigest, now, now + cfg.leaseTtlMs);
            if s.requests[id].stage in {Queued, RetryWait} then
              && step.out == Execute(Assignment(Identity(id, attemptId, lease, x, g, segment), cfg.manifestDigest,
                                                if segment == 0 then None else Some(s.checkpoints[(id, segment - 1)])))
              && t == WithLease(s, l).(
                        requests := s.requests[id := s.requests[id].(stage := Running)],
                        workers := s.workers[x := s.workers[x].(stage := Busy, currentSegment := Some(segment))])
            else step.out == Throw(StateTransitionViolation) && t == WithLease(s, l)
  {
    hide Replay, Apply, Assign, Requeue, InputReady, Dispatch, WithLease, Over;
    DispatchAssigns(cfg, s, id, segment, attempt, x, attemptId, lease, now);
    RequeueRequeues(s, id);
    var s1 := Requeued(s, id);
    OpenWithInput(cfg, s, id, segment, now);
    AssignHandsOver(cfg, s1, id, segment, s.workers[x], attemptId, lease, now);
    ReplayAppend(s, Requeue(s, id), Assign(cfg, s1, id, segment, s.workers[x], attemptId, lease, now).ops);
    var l := Lease(lease, id, attemptId, x, s.workers[x].generation, segment, cfg.manifestDigest, now,
                   now + cfg.leaseTtlMs);
    LeasingKeepsRequests(s, s1, l);
  }

  lemma OpenWithInput(cfg: Config, s: Store, id: RequestId, segment: nat, now: nat)
    requires !Over(s, id) && InputReady(s, cfg, id, segment, now)
    ensures id in s.requests && (segment > 0 ==> (id, segment - 1) in s.checkpoints)
  {}

  lemma LeasingKeepsRequests(s: Store, s1: Store, l: Lease)
    requires s1 == s.(requests := s1.requests)
    ensures WithLease(s1, l) == WithLease(s, l).(requests := s1.requests)
  {}

  lemma DispatchAssigns(cfg: Config, s: Store, id: RequestId, segment: nat, attempt: nat,
                        x: WorkerId, attemptId: AttemptId, lease: LeaseId, now: nat)
    requires attempt <= cfg.maxRetries && !Over(s, id) && id !in s.cancellations
    requires InputReady(s, cfg, id, segment, now) && x in s.workers
    ensures var granted := Assign(cfg, Requeued(s, id), id, segment, s.workers[x], attemptId, lease, now);
            Dispatch(cfg, s, id, segment, attempt, false, Some(x), attemptId, lease, now)
            == Step(Requeue(s, id) + granted.ops, granted.out)
  {
    hide Replay, Apply, Assign, Requeue;
    RequeueRequeues(s, id);
  }

  lemma AssignHandsOver(cfg: Config, s: Store, id: RequestId, segment: nat, w: Worker,
                        attemptId: AttemptId, lease: LeaseId, now: nat)
    requires id in s.requests && w.id in s.workers && s.workers[w.id] == w
    requires segment > 0 ==> (id, segment - 1) in s.checkpoints
    ensures var step := Assign(cfg, s, id, segment, w, attemptId, lease, now);
            var t := Replay(s, step.ops);
            var l := Lease(lease, id, attemptId, w.id, w.generation, segment, cfg.manifestDigest, now,
                           now + cfg.leaseTtlMs);
            if s.requests[id].stage == Queued then
              && step.out == Execute(Assignment(Identity(id, attemptId, lease, w.id, w.generation, segment),
                                                cfg.manifestDigest,
                                                if segment == 0 then None else Some(s.checkpoints[(id, segment - 1)])))
              && t == WithLease(s, l).(
                        requests := s.requests[id := s.requests[id].(stage := Running)],
                        workers := s.workers[w.id := w.(stage := Busy, currentSegment := Some(segment))])
            else step.out == Throw(StateTransitionViolation) && t == WithLease(s, l)
  {
    hide Replay, Apply, Mark;
    var l := Issue(cfg, w, id, segment, attemptId, lease, now);
    var put, note := Leases(PutLease(l)), Bookkeeping(AppendAttempt(AttemptOf(l)));
    ReplayTwo(s, put, note);
    LeaseIsNoted(s, l);
    if s.requests[id].stage == Queued {
      var claim, start := Requests(Transition(id, Queued, Leased)), Requests(Transition(id, Leased, Running));
      var mark := Mark(s, w.id, w.generation, Busy, Some(segment));
      ReplayFour(s, put, note, claim, start);
      StartsRunning(WithLease(s, l), id);
      var t := Replay(s, [put, note, claim, start]);
      MarksAlike(s, t, w.id, w.generation, Busy, Some(segment));
      MarkMarks(t, w.id, w.generation, Busy, Some(segment));
      ReplayAppend(s, [put, note, claim, start], mark);
      assert Assign(cfg, s, id, segment, w, attemptId, lease, now).ops == [put, note, claim, start] + mark;
    }
  }

  lemma MarksAlike(s: Store, t: Store, w: WorkerId, g: Generation, stage: WorkerStage, current: Option<nat>)
    requires s.workers == t.workers
    ensures Mark(s, w, g, stage, current) == Mark(t, w, g, stage, current)
  {}

  lemma LeaseIsNoted(s: Store, l: Lease)
    ensures Apply(Apply(s, Leases(PutLease(l))), Bookkeeping(AppendAttempt(AttemptOf(l)))) == WithLease(s, l)
  {}

  lemma StartsRunning(s: Store, id: RequestId)
    requires id in s.requests && s.requests[id].stage == Queued
    ensures Apply(Apply(s, Requests(Transition(id, Queued, Leased))), Requests(Transition(id, Leased, Running)))
         == s.(requests := s.requests[id := s.requests[id].(stage := Running)])
  {}

  // --- Accepting a result ---

  /** The identity is that of the live lease, field by field; the instant of expiry counts as live. */
  predicate Owns(s: Store, id: Identity, now: nat) {
    && id.requestId in s.leases
    && var l := s.leases[id.requestId];
       && now <= l.expiresAt && id.attemptId == l.attemptId && id.leaseId == l.leaseId
       && id.workerId == l.workerId && id.generation == l.generation && id.segment == l.segment
  }

  /** The first thing that is wrong with an identity that does not own the live lease. */
  predicate Names(s: Store, id: Identity, now: nat, reason: Mismatch) {
    if id.requestId !in s.leases then reason == NoActiveLease
    else
      var l := s.leases[id.requestId];
      match reason
      case NoActiveLease => false
      case PastExpiry => l.expiresAt < now
      case OtherAttempt => now <= l.expiresAt && l.attemptId != id.attemptId
      case OtherLease => now <= l.expiresAt && l.attemptId == id.attemptId && l.leaseId != id.leaseId
      case OtherWorker =>
        now <= l.expiresAt && l.attemptId == id.attemptId && l.leaseId == id.leaseId && l.workerId != id.workerId
      case OtherGeneration =>
        && now <= l.expiresAt && l.attemptId == id.attemptId && l.leaseId == id.leaseId
        && l.workerId == id.workerId && l.generation != id.generation
      case OtherSegment =>
        && now <= l.expiresAt && l.attemptId == id.attemptId && l.leaseId == id.leaseId
        && l.workerId == id.workerId && l.generation == id.generation && l.segment != id.segment
  }

  lemma MismatchIsNamed(s: Store, id: Identity, now: nat)
    ensures Match(s, id, now).None? <==> Owns(s, id, now)
    ensures forall reason :: Match(s, id, now) == Some(reason) <==> Names(s, id, now, reason)
  {}

  predicate CancelledFor(s: Store, id: RequestId) {
    id in s.requests && (id in s.cancellations || s.requests[id].stage == Cancelled)
  }

  /** Who is turned away before the result is looked at, and with which answer. */
  lemma EntryTurnsAway(cfg: Config, s: Store, result: WorkerResult, now: nat, ids: seq<LeaseId>)
    requires UniqueLeaseIds(s.leases)
    requires (result.WorkerResult? && result.identity.requestId in s.requests
              && !CancelledFor(s, result.identity.requestId)) ==> !Owns(s, result.identity, now)
    ensures var step := AcceptEntry(cfg, s, result, now, ids);
            var t := Replay(s, step.ops);
            if result.BadEnvelope? || result.identity.requestId !in s.requests then
              step.out == Settled(ProtocolError) && t == s
            else if CancelledFor(s, result.identity.requestId) then
              && step.out == Settled(AcceptCancelled)
              && t == ShutIfOpen(s, result.identity.requestId, Cancelled, UserCancellation)
            else
              && step.out.Settled? && step.out.acceptance.IdentityMismatch?
              && Names(s, result.identity, now, step.out.acceptance.reason) && t == s
  {
    hide Replay, Apply, Finalize, ShutIfOpen, UniqueLeaseIds, Complete, Isolate;
    NothingWritten(s);
    if result.WorkerResult? {
      MismatchIsNamed(s, result.identity, now);
      FinalizeShuts(s, result.identity.requestId, Cancelled, UserCancellation);
    }
  }

  /**
   * The request is completed with this answer: result and stage are stored together,
   * the lease and the checkpoints are gone, the attempt is closed.
   */
  function CompletedWith(s: Store, id: Identity, tokens: seq<nat>, text: string): Store
    requires id.requestId in s.requests
  {
    var r := id.requestId;
    AttemptOver(s, r, id.attemptId, AttemptCompleted, None).(
      results := s.results[r := Result(r, tokens, text, s.requests[r].totalSegments)],
      requests := s.requests[r := s.requests[r].(stage := Completed)],
      leases := s.leases - {r},
      checkpoints := map k | k in s.checkpoints && k.0 != r && !(r + ":" <= k.0) :: s.checkpoints[k])
  }

  /** At the last segment the owner's output, if it is one, completes the running request. */
  lemma EntryCompletes(cfg: Config, s: Store, result: WorkerResult, now: nat, ids: seq<LeaseId>)
    requires UniqueLeaseIds(s.leases)
    requires result.WorkerResult? && result.identity.requestId in s.requests
    requires !CancelledFor(s, result.identity.requestId) && Owns(s, result.identity, now)
    requires result.identity.segment + 1 == s.requests[result.identity.requestId].totalSegments
    ensures var step := AcceptEntry(cfg, s, result, now, ids);
            var t := Replay(s, step.ops);
            var r := result.identity.requestId;
            match result.produced
            case NoOutput => step.out == Settled(OutputMissing) && t == s
            case BadOutput => step.out == Settled(ProtocolError) && t == s
            case Output(tokens, text) =>
              if r in s.results then step.out == Settled(Duplicate) && t == Unleased(s, r)
              else if s.requests[r].stage != Running then step.out == Settled(ProtocolError) && t == Unleased(s, r)
              else step.out == Settled(AcceptedFinal) && t == CompletedWith(s, result.identity, tokens, text)
  {
    hide Replay, Apply, Finalize, UniqueLeaseIds, Complete, Isolate, Match, CompletedWith;
    NothingWritten(s);
    MismatchIsNamed(s, result.identity, now);
    if result.produced.Output? {
      CompleteStoresAnswer(s, result.identity, result.produced.tokens, result.produced.text);
    }
  }

  lemma CompleteStoresAnswer(s: Store, id: Identity, tokens: seq<nat>, text: string)
    requires UniqueLeaseIds(s.leases) && id.requestId in s.requests && id.requestId in s.leases
    ensures var r := id.requestId;
            var step := Complete(s, id, s.requests[r].totalSegments, tokens, text);
            var t := Replay(s, step.ops);
            if r in s.results then step.out == Settled(Duplicate) && t == Unleased(s, r)
            else if s.requests[r].stage != Running then step.out == Settled(ProtocolError) && t == Unleased(s, r)
            else step.out == Settled(AcceptedFinal) && t == CompletedWith(s, id, tokens, text)
  {
    hide Replay, Ended, CompletedWith, Apply;
    var r := id.requestId;
    ReclaimGives(s, r);
    if r !in s.results && s.requests[r].stage == Running {
      var commit := Commit(r, Running, Result(r, tokens, text, s.requests[r].totalSegments));
      var reclaim := Leases(DeleteLease(s.leases[r].leaseId));
      var note := Bookkeeping(UpdateAttempt(r, id.attemptId, AttemptCompleted, None));
      var drop := Checkpoints(DeleteCheckpoints(r));
      assert Complete(s, id, s.requests[r].totalSegments, tokens, text).ops == [commit, reclaim, note, drop];
      ReplayFour(s, commit, reclaim, note, drop);
      var u := Apply(Apply(s, commit), reclaim);
      UpdateEndsAttempt(u, r, id.attemptId, AttemptCompleted, None);
      var t := DropsCheckpoints(AttemptOver(u, r, id.attemptId, AttemptCompleted, None), r);
      CommitGives(s, id, tokens, text);
    }
  }

  lemma CommitGives(s: Store, id: Identity, tokens: seq<nat>, text: string)
    requires UniqueLeaseIds(s.leases) && id.requestId in s.requests && id.requestId in s.leases
    requires id.requestId !in s.results && s.requests[id.requestId].stage == Running
    ensures var r := id.requestId;
            var commit := Commit(r, Running, Result(r, tokens, text, s.requests[r].totalSegments));
            var u := Apply(Apply(s, commit), Leases(DeleteLease(s.leases[r].leaseId)));
            var v := AttemptOver(u, r, id.attemptId, AttemptCompleted, None);
            v.(checkpoints := map k | k in v.checkpoints && k.0 != r && !(r + ":" <= k.0) :: v.checkpoints[k])
            == CompletedWith(s, id, tokens, text)
  {
    hide Ended;
    var r := id.requestId;
    assert ApplyLease(s.leases, DeleteLease(s.leases[r].leaseId)) == s.leases - {r};
  }

  /**
   * Before the last segment a checkpoint of tolerable size goes to the awaited check; any other
   * casts its worker out.
   */
  lemma EntryRelays(cfg: Config, s: Store, result: WorkerResult, now: nat, ids: seq<LeaseId>)
    requires UniqueLeaseIds(s.leases)
    requires result.WorkerResult? && result.identity.requestId in s.requests
    requires Lists(s, result.identity.workerId, result.identity.generation, ids)
    requires !CancelledFor(s, result.identity.requestId) && Owns(s, result.identity, now)
    requires result.identity.segment + 1 != s.requests[result.identity.requestId].totalSegments
    ensures var step := AcceptEntry(cfg, s, result, now, ids);
            var t := Replay(s, step.ops);
            var id, relayed := result.identity, result.relayed;
            if relayed.NoCheckpoint? then step.out == Settled(ProtocolError) && t == s
            else if relayed.BadCheckpoint? || |relayed.checkpoint.payload| > cfg.maxCheckpointBytes then
              step.out == Settled(CheckpointRejected) && t == CastOutIfKnown(s, id.workerId, id.generation)
            else step.out == Validate(id, relayed.checkpoint) && t == s
  {
    hide Replay, Apply, Finalize, UniqueLeaseIds, Complete, Isolate, Match, Lists, CastOutIfKnown;
    NothingWritten(s);
    MismatchIsNamed(s, result.identity, now);
    IsolateCasts(s, result.identity.workerId, result.identity.generation, ids);
  }

  /** At this moment the answer is the output of the last segment, by the owner of its live lease. */
  predicate FinalAnswer(s: Store, answer: WorkerResult, now: nat) {
    && answer.WorkerResult? && answer.produced.Output?
    && var id := answer.identity.requestId;
       && id in s.requests && s.requests[id].stage == Running && id !in s.cancellations
       && answer.identity.segment + 1 == s.requests[id].totalSegments
       && Owns(s, answer.identity, now)
  }

  function ResultOf(s: Store, answer: WorkerResult): Result
    requires answer.WorkerResult? && answer.produced.Output? && answer.identity.requestId in s.requests
  {
    var id := answer.identity.requestId;
    Result(id, answer.produced.tokens, answer.produced.text, s.requests[id].totalSegments)
  }

  /**
   * An answer is accepted as final exactly when it is such an answer and there is no
   * result yet; then it is stored word for word and the request is completed.
   */
  lemma FinalAnswersAreStored(cfg: Config, s: Store, result: WorkerResult, now: nat, ids: seq<LeaseId>)
    requires UniqueLeaseIds(s.leases)
    ensures AcceptEntry(cfg, s, result, now, ids).out == Settled(AcceptedFinal) <==>
              FinalAnswer(s, result, now) && result.identity.requestId !in s.results
    ensures AcceptEntry(cfg, s, result, now, ids).out == Settled(AcceptedFinal) ==>
              var t, r := Replay(s, AcceptEntry(cfg, s, result, now, ids).ops), result.identity.requestId;
              && t.results == s.results[r := Result(r, result.produced.tokens, result.produced.text,
                                                    s.requests[r].totalSegments)]
              && t.requests == s.requests[r := s.requests[r].(stage := Completed)]
              && r !in t.leases && (forall k :: (r, k) !in t.checkpoints)
  {
    hide Replay, Apply, Finalize, UniqueLeaseIds, Isolate, Match, Owns;
    if result.WorkerResult? {
      MismatchIsNamed(s, result.identity, now);
    }
    if FinalAnswer(s, result, now) && result.identity.requestId !in s.results {
      EntryCompletes(cfg, s, result, now, ids);
      CompletionHoldsNothing(s, result.identity, result.produced.tokens, result.produced.text);
    }
  }

  lemma CompletionHoldsNothing(s: Store, id: Identity, tokens: seq<nat>, text: string)
    requires id.requestId in s.requests
    ensures var t, r := CompletedWith(s, id, tokens, text), id.requestId;
            r !in t.leases && forall k :: (r, k) !in t.checkpoints
  {
    hide AttemptOver;
  }

  // --- Committing a relayed checkpoint ---

  /** The envelope is that of the identity and of this manifest, of tolerable size, and not expired. */
  predicate Fits(cfg: Config, id: Identity, c: Checkpoint, now: nat) {
    && c.requestId == id.requestId && c.segment == id.segment
    && c.workerId == id.workerId && c.generation == id.generation
    && c.manifestDigest == cfg.manifestDigest && c.formatVersion == cfg.formatVersion
    && |c.payload| <= cfg.maxCheckpointBytes
    && c.createdAt + c.ttlMs <= MAX_SAFE_INTEGER && now < c.createdAt + c.ttlMs
  }

  /** The checkpoint is in its slot, the attempt is closed, and the lease is given back. */
  function RelayStored(s: Store, id: Identity, c: Checkpoint): Store {
    var slot := (c.requestId, c.segment);
    AttemptOver(s, id.requestId, id.attemptId, AttemptCompleted, None).(
      checkpoints := if slot in s.checkpoints then s.checkpoints else s.checkpoints[slot := c],
      leases := s.leases - {id.requestId})
  }

  /** What stands against a relayed checkpoint after the await, in order, and what is left if nothing does. */
  lemma CommitLeaves(cfg: Config, s: Store, id: Identity, c: Checkpoint, entered: nat, intact: bool, now: nat,
                      ids: seq<LeaseId>)
    requires UniqueLeaseIds(s.leases) && Lists(s, id.workerId, id.generation, ids)
    ensures var step := AcceptCommit(cfg, s, id, c, entered, intact, now, ids);
            var t := Replay(s, step.ops);
            var r, slot, late := id.requestId, (id.requestId, id.segment), if entered < now then now else entered;
            if !Fits(cfg, id, c, entered) || !intact then
              step.out == CheckpointRejected && t == CastOutIfKnown(s, id.workerId, id.generation)
            else if r in s.cancellations then
              step.out == AcceptCancelled && t == ShutIfOpen(s, r, Cancelled, UserCancellation)
            else if !Owns(s, id, late) then
              step.out.IdentityMismatch? && Names(s, id, late, step.out.reason) && t == s
            else if r !in s.requests || s.requests[r].stage != Running then step.out == ProtocolError && t == s
            else if c.createdAt + c.ttlMs <= late then step.out == CheckpointRejected && t == s
            else if slot in s.checkpoints && s.checkpoints[slot].payloadDigest != c.payloadDigest then
              step.out == CheckpointConflict && t == CastOutIfKnown(s, id.workerId, id.generation)
            else step.out == AcceptedCheckpoint(c) && t == RelayStored(s, id, c)
  {
    hide Replay, Apply, Finalize, ShutIfOpen, UniqueLeaseIds, Isolate, Match, CastOutIfKnown, Lists, Relay,
      RelayStored, Names, Owns;
    NothingWritten(s);
    MismatchIsNamed(s, id, if entered < now then now else entered);
    IsolateCasts(s, id.workerId, id.generation, ids);
    FinalizeShuts(s, id.requestId, Cancelled, UserCancellation);
    if Fits(cfg, id, c, entered) && Owns(s, id, Max(entered, now)) {
      RelayStores(s, id, c, Max(entered, now));
    }
  }

  lemma RelayStores(s: Store, id: Identity, c: Checkpoint, now: nat)
    requires UniqueLeaseIds(s.leases) && Owns(s, id, now) && c.requestId == id.requestId
    ensures Match(Replay(s, Relay(id, c)), id, now).None?
    ensures Replay(s, Relay(id, c) + [Leases(DeleteLease(id.leaseId))]) == RelayStored(s, id, c)
  {
    hide Replay, UniqueLeaseIds, AttemptOver, Match, RelayStored, Apply, Owns;
    var put := Checkpoints(PutCheckpoint(c));
    var note := Bookkeeping(UpdateAttempt(id.requestId, id.attemptId, AttemptCompleted, None));
    var give := Leases(DeleteLease(id.leaseId));
    ReplayTwo(s, put, note);
    var u := Apply(s, put);
    UpdateEndsAttempt(u, id.requestId, id.attemptId, AttemptCompleted, None);
    var v := AttemptOver(u, id.requestId, id.attemptId, AttemptCompleted, None);
    MismatchIsNamed(v, id, now);
    ReplayAppend(s, Relay(id, c), [give]);
    ReplaySingle(v, give);
    RelayFits(s, id, c, now);
  }

  lemma RelayFits(s: Store, id: Identity, c: Checkpoint, now: nat)
    requires UniqueLeaseIds(s.leases) && Owns(s, id, now) && c.requestId == id.requestId
    ensures var u := Apply(s, Checkpoints(PutCheckpoint(c)));
            var v := AttemptOver(u, id.requestId, id.attemptId, AttemptCompleted, None);
            Owns(v, id, now) && Apply(v, Leases(DeleteLease(id.leaseId))) == RelayStored(s, id, c)
  {
    hide Ended;
    assert ApplyLease(s.leases, DeleteLease(id.leaseId)) == s.leases - {id.requestId};
  }

  // --- After the executor settled ---

  /** The worker is idle, the lease given back, the attempt closed as failed with this code. */
  function FailureNoted(s: Store, id: Identity, code: ErrorCode): Store {
    AttemptOver(Unleased(Marked(s, id.workerId, id.generation, Idle, None), id.requestId),
                id.requestId, id.attemptId, AttemptFailed, Some(code))
  }

  lemma SettleNotes(s: Store, id: Identity, code: ErrorCode)
    requires UniqueLeaseIds(s.leases)
    ensures Replay(s, SettleFailure(s, id, code)) == FailureNoted(s, id, code)
  {
    hide Replay, Apply, Mark, Reclaim, AttemptOver, UniqueLeaseIds;
    var idle, reclaim := MarkIdle(s, id.workerId, id.generation), Reclaim(s, id.requestId);
    var note := Bookkeeping(UpdateAttempt(id.requestId, id.attemptId, AttemptFailed, Some(code)));
    MarkMarks(s, id.workerId, id.generation, Idle, None);
    var s1 := Marked(s, id.workerId, id.generation, Idle, None);
    LikeLeases(s, s1, id.requestId);
    ReclaimGives(s1, id.requestId);
    var s2 := Unleased(s1, id.requestId);
    ReplayAppend(s, idle, reclaim);
    ReplayAppend(s, idle + reclaim, [note]);
    ReplaySingle(s2, note);
    UpdateEndsAttempt(s2, id.requestId, id.attemptId, AttemptFailed, Some(code));
    assert SettleFailure(s, id, code) == idle + reclaim + [note];
  }

  /** A code after which the execution is tried again while the budget lasts. */
  predicate WorthRetrying(code: ErrorCode) {
    || code == WorkerDisconnected || code == HeartbeatTimeout || code == TransportTransient
    || code == RuntimeTransient || code == ModelPreparationFailure || code == SegmentTimeout
  }

  /** A code that says nothing against the worker. */
  predicate NotTheWorkers(code: ErrorCode) {
    || code == InvalidInput || code == UnsupportedRequest || code == ContextOverflow || code == UserCancellation
    || code == DeadlineExceeded || code == RequestNotFound || code == DuplicateCompletion
    || code == StateTransitionViolation || code == UnknownWorker
  }

  /** One more retry is counted, and the worker is out of the choice. */
  function RetryCounted(s: Store, id: Identity, code: ErrorCode): Store
    requires id.requestId in s.requests
  {
    var r, u := id.requestId, Marked(FailureNoted(s, id, code), id.workerId, id.generation, Disconnected, None);
    u.(requests := s.requests[r := s.requests[r].(retryCount := s.requests[r].retryCount + 1)])
  }

  /**
   * A failed execution is tried again when its code is worth it and the budget
   * lasts: the request waits for its retry, with one more retry counted and the
   * worker out of the choice. Otherwise the request fails with that code.
   */
  lemma RecoverLeaves(cfg: Config, s: Store, a: Assignment, code: ErrorCode, aborted: bool)
    requires UniqueLeaseIds(s.leases)
    ensures var step := Recover(cfg, s, a, code, aborted);
            var t := Replay(s, step.ops);
            var id, r := a.identity, a.identity.requestId;
            if aborted then step.out == Throw(code) && t == Marked(s, id.workerId, id.generation, Idle, None)
            else if !(WorthRetrying(code) && r in s.requests && s.requests[r].retryCount < cfg.maxRetries) then
              step.out == ReturnNull && t == ShutIfOpen(FailureNoted(s, id, code), r, Failed, code)
            else
              var counted := RetryCounted(s, id, code);
              if s.requests[r].stage != Running then step.out == Throw(StateTransitionViolation) && t == counted
              else
                && step.out == Sleep
                && t == counted.(requests := counted.requests[r := counted.requests[r].(stage := RetryWait)])
  {
    hide Replay, Apply, Mark, Finalize, UniqueLeaseIds, ShutIfOpen, FailureNoted, SettleFailure, RetryCounted;
    var id, r := a.identity, a.identity.requestId;
    if aborted {
      MarkMarks(s, id.workerId, id.generation, Idle, None);
    } else if WorthRetrying(code) && r in s.requests && s.requests[r].retryCount < cfg.maxRetries {
      RecoverRetries(cfg, s, a, code);
    } else {
      RecoverFails(cfg, s, a, code);
    }
  }

  lemma RecoverFails(cfg: Config, s: Store, a: Assignment, code: ErrorCode)
    requires UniqueLeaseIds(s.leases)
    requires !(WorthRetrying(code) && a.identity.requestId in s.requests
               && s.requests[a.identity.requestId].retryCount < cfg.maxRetries)
    ensures var step, id := Recover(cfg, s, a, code, false), a.identity;
            && step.out == ReturnNull
            && Replay(s, step.ops) == ShutIfOpen(FailureNoted(s, id, code), id.requestId, Failed, code)
  {
    hide Replay, Apply, Mark, Finalize, UniqueLeaseIds, ShutIfOpen, FailureNoted, SettleFailure;
    var id := a.identity;
    SettleNotes(s, id, code);
    var u := FailureNoted(s, id, code);
    FailureNotedKeepsUnique(s, id, code);
    FinalizeShuts(u, id.requestId, Failed, code);
    ReplayAppend(s, SettleFailure(s, id, code), Finalize(u, id.requestId, Failed, code));
  }

  lemma RecoverRetries(cfg: Config, s: Store, a: Assignment, code: ErrorCode)
    requires UniqueLeaseIds(s.leases)
    requires WorthRetrying(code) && a.identity.requestId in s.requests
    requires s.requests[a.identity.requestId].retryCount < cfg.maxRetries
    ensures var step, id, r := Recover(cfg, s, a, code, false), a.identity, a.identity.requestId;
            var counted := RetryCounted(s, id, code);
            var t := Replay(s, step.ops);
            if s.requests[r].stage != Running then step.out == Throw(StateTransitionViolation) && t == counted
            else
              && step.out == Sleep
              && t == counted.(requests := counted.requests[r := counted.requests[r].(stage := RetryWait)])
  {
    hide Replay, Apply, Mark, Finalize, UniqueLeaseIds, FailureNoted, SettleFailure, RetryCounted;
    var id, r := a.identity, a.identity.requestId;
    RetryCounts(s, id, code);
    var counted := SettleFailure(s, id, code) + MarkDisconnected(s, id.workerId, id.generation)
                   + [Requests(SetRetryCount(r, s.requests[r].retryCount + 1))];
    if s.requests[r].stage == Running {
      var wait := Requests(Transition(r, Running, RetryWait));
      ReplayAppend(s, counted, [wait]);
      ReplaySingle(RetryCounted(s, id, code), wait);
      WaitsForRetry(s, id, code);
    }
  }

  lemma FailureNotedKeepsUnique(s: Store, id: Identity, code: ErrorCode)
    requires UniqueLeaseIds(s.leases)
    ensures UniqueLeaseIds(FailureNoted(s, id, code).leases)
  {
    hide Marked, AttemptOver, UniqueLeaseIds;
    MarkedKeepsUnique(s, id.workerId, id.generation, Idle, None);
    var idle := Marked(s, id.workerId, id.generation, Idle, None);
    AttemptsOnly(Unleased(idle, id.requestId), id.requestId, id.attemptId, AttemptFailed, Some(code));
    UnleasedKeepsUnique(idle, id.requestId);
  }

  lemma UnleasedKeepsUnique(s: Store, id: RequestId)
    requires UniqueLeaseIds(s.leases)
    ensures UniqueLeaseIds(Unleased(s, id).leases)
  {}

  lemma WaitsForRetry(s: Store, id: Identity, code: ErrorCode)
    requires id.requestId in s.requests && s.requests[id.requestId].stage == Running
    ensures var counted, r := RetryCounted(s, id, code), id.requestId;
            Apply(counted, Requests(Transition(r, Running, RetryWait)))
            == counted.(requests := counted.requests[r := counted.requests[r].(stage := RetryWait)])
  {}

  lemma RetryCounts(s: Store, id: Identity, code: ErrorCode)
    requires UniqueLeaseIds(s.leases) && id.requestId in s.requests
    ensures Replay(s, SettleFailure(s, id, code) + MarkDisconnected(s, id.workerId, id.generation)
                      + [Requests(SetRetryCount(id.requestId, s.requests[id.requestId].retryCount + 1))])
         == RetryCounted(s, id, code)
  {
    hide Replay, Finalize, UniqueLeaseIds, SettleFailure, Mark, AttemptOver;
    var u := FailureNoted(s, id, code);
    var settled, away := SettleFailure(s, id, code), MarkDisconnected(s, id.workerId, id.generation);
    var count := Requests(SetRetryCount(id.requestId, s.requests[id.requestId].retryCount + 1));
    SettleNotes(s, id, code);
    AttemptsOnly(Unleased(Marked(s, id.workerId, id.generation, Idle, None), id.requestId), id.requestId, id.attemptId,
                 AttemptFailed, Some(code));
    LikeGeneration(s, u, id);
    MarkMarks(u, id.workerId, id.generation, Disconnected, None);
    ReplayAppend(s, settled, away);
    ReplayAppend(s, settled + away, [count]);
    ReplaySingle(Marked(u, id.workerId, id.generation, Disconnected, None), count);
  }

  lemma AttemptsOnly(s: Store, id: RequestId, attemptId: AttemptId, outcome: AttemptOutcome, error: Option<ErrorCode>)
    ensures var t := AttemptOver(s, id, attemptId, outcome, error); t == s.(books := t.books)
  {}

  lemma LikeGeneration(s: Store, u: Store, id: Identity)
    requires u.workers == Marked(s, id.workerId, id.generation, Idle, None).workers
    ensures MarkDisconnected(u, id.workerId, id.generation) == MarkDisconnected(s, id.workerId, id.generation)
  {}

  /** A stored answer ends the segment: the worker is idle, and a relayed request is queued for the next one. */
  lemma ContinueAfterSuccess(cfg: Config, s: Store, a: Assignment, acceptance: Acceptance, aborted: bool,
                             ids: seq<LeaseId>)
    requires UniqueLeaseIds(s.leases)
    requires acceptance.AcceptedFinal? || acceptance.Duplicate? || acceptance.AcceptedCheckpoint?
    ensures var step := Continue(cfg, s, a, acceptance, aborted, ids);
            var t := Replay(s, step.ops);
            var id, r := a.identity, a.identity.requestId;
            var idle := Marked(s, id.workerId, id.generation, Idle, None);
            if !acceptance.AcceptedCheckpoint? then step.out == ReturnResult && t == idle
            else if r in s.requests && s.requests[r].stage == Running then
              step.out == ReturnResult && t == idle.(requests := s.requests[r := s.requests[r].(stage := Queued)])
            else if aborted then step.out == Throw(StateTransitionViolation) && t == idle
            else
              && step.out == ReturnNull
              && t == ShutIfOpen(FailureNoted(s, id, StateTransitionViolation), r, Failed, StateTransitionViolation)
  {
    hide Replay, Apply, Mark, Finalize, UniqueLeaseIds, ShutIfOpen, FailureNoted, Marked, Recover, Isolate;
    var id, r := a.identity, a.identity.requestId;
    var idle := MarkIdle(s, id.workerId, id.generation);
    MarkMarks(s, id.workerId, id.generation, Idle, None);
    if acceptance.AcceptedCheckpoint? {
      var s1 := Marked(s, id.workerId, id.generation, Idle, None);
      if r in s.requests && s.requests[r].stage == Running {
        ReplayAppend(s, idle, [Requests(Transition(r, Running, Queued))]);
        ReplaySingle(s1, Requests(Transition(r, Running, Queued)));
        QueuesAgain(s, id);
      } else {
        MarkedKeepsUnique(s, id.workerId, id.generation, Idle, None);
        RecoverLeaves(cfg, s1, a, StateTransitionViolation, aborted);
        ReplayAppend(s, idle, Recover(cfg, s1, a, StateTransitionViolation, aborted).ops);
        IdleTwice(s, id, StateTransitionViolation);
      }
    }
  }

  lemma MarkedKeepsUnique(s: Store, w: WorkerId, g: Generation, stage: WorkerStage, current: Option<nat>)
    requires UniqueLeaseIds(s.leases)
    ensures UniqueLeaseIds(Marked(s, w, g, stage, current).leases)
  {}

  lemma QueuesAgain(s: Store, id: Identity)
    requires id.requestId in s.requests && s.requests[id.requestId].stage == Running
    ensures var s1, r := Marked(s, id.workerId, id.generation, Idle, None), id.requestId;
            Apply(s1, Requests(Transition(r, Running, Queued)))
            == s1.(requests := s.requests[r := s.requests[r].(stage := Queued)])
  {}

  lemma IdleTwice(s: Store, id: Identity, code: ErrorCode)
    ensures var s1 := Marked(s, id.workerId, id.generation, Idle, None);
            Marked(s1, id.workerId, id.generation, Idle, None) == s1
            && FailureNoted(s1, id, code) == FailureNoted(s, id, code)
  {
    hide AttemptOver;
    assert Marked(Marked(s, id.workerId, id.generation, Idle, None), id.workerId, id.generation, Idle, None)
        == Marked(s, id.workerId, id.generation, Idle, None);
  }

  /** A cancelled answer closes the attempt and the request as cancelled. */
  lemma ContinueAfterCancel(cfg: Config, s: Store, a: Assignment, aborted: bool, ids: seq<LeaseId>)
    requires UniqueLeaseIds(s.leases)
    ensures var step := Continue(cfg, s, a, AcceptCancelled, aborted, ids);
            var id, r := a.identity, a.identity.requestId;
            var idle := Marked(s, id.workerId, id.generation, Idle, None);
            && step.out == ReturnNull
            && Replay(s, step.ops)
               == ShutIfOpen(AttemptOver(idle, r, id.attemptId, AttemptCancelled, Some(UserCancellation)), r, Cancelled,
                             UserCancellation)
  {
    hide Replay, Apply, Mark, Finalize, UniqueLeaseIds, ShutIfOpen, Marked, Recover, Isolate, AttemptOver;
    var id, r := a.identity, a.identity.requestId;
    var idle := MarkIdle(s, id.workerId, id.generation);
    MarkMarks(s, id.workerId, id.generation, Idle, None);
    var s1 := Marked(s, id.workerId, id.generation, Idle, None);
    MarkedKeepsUnique(s, id.workerId, id.generation, Idle, None);
    NotesThenShuts(s1, id, AttemptCancelled, Some(UserCancellation), Cancelled, UserCancellation);
    var rest := [Bookkeeping(UpdateAttempt(r, id.attemptId, AttemptCancelled, Some(UserCancellation)))]
                + Finalize(s1, r, Cancelled, UserCancellation);
    ReplayAppend(s, idle, rest);
    assert Continue(cfg, s, a, AcceptCancelled, aborted, ids).ops == idle + rest;
  }

  /** The attempt is closed, then the request. */
  lemma NotesThenShuts(s: Store, id: Identity, outcome: AttemptOutcome, error: Option<ErrorCode>, stage: Stage,
                       code: ErrorCode)
    requires UniqueLeaseIds(s.leases) && stage in {Failed, Cancelled}
    ensures var r := id.requestId;
            Replay(s, [Bookkeeping(UpdateAttempt(r, id.attemptId, outcome, error))] + Finalize(s, r, stage, code))
            == ShutIfOpen(AttemptOver(s, r, id.attemptId, outcome, error), r, stage, code)
  {
    hide Replay, Apply, UniqueLeaseIds, ShutIfOpen, AttemptOver;
    var note := Bookkeeping(UpdateAttempt(id.requestId, id.attemptId, outcome, error));
    ReplayLead(s, note, Finalize(s, id.requestId, stage, code));
    UpdateEndsAttempt(s, id.requestId, id.attemptId, outcome, error);
    AttemptsOnly(s, id.requestId, id.attemptId, outcome, error);
    var t := AttemptOver(s, id.requestId, id.attemptId, outcome, error);
    assert Finalize(s, id.requestId, stage, code) == Finalize(t, id.requestId, stage, code);
    FinalizeShuts(t, id.requestId, stage, code);
  }

  /** Any other answer casts the worker out, closes the attempt as suppressed and fails the request. */
  lemma ContinueAfterRefusal(cfg: Config, s: Store, a: Assignment, acceptance: Acceptance, aborted: bool,
                             ids: seq<LeaseId>)
    requires UniqueLeaseIds(s.leases) && Lists(s, a.identity.workerId, a.identity.generation, ids)
    requires acceptance.IdentityMismatch? || acceptance.CheckpointRejected? || acceptance.CheckpointConflict?
             || acceptance.ProtocolError? || acceptance.OutputMissing?
    ensures var step := Continue(cfg, s, a, acceptance, aborted, ids);
            var id, r := a.identity, a.identity.requestId;
            var code := if acceptance.IdentityMismatch? then ResultIdentityMismatch
                        else if acceptance.ProtocolError? || acceptance.OutputMissing? then ProtocolViolation
                        else CheckpointIntegrityMismatch;
            var out := CastOutIfKnown(Marked(s, id.workerId, id.generation, Idle, None), id.workerId, id.generation);
            && step.out == ReturnNull
            && Replay(s, step.ops)
               == ShutIfOpen(AttemptOver(out, r, id.attemptId, AttemptSuppressed, Some(code)), r, Failed, code)
  {
    hide Replay, Apply, Mark, Finalize, UniqueLeaseIds, ShutIfOpen, Marked, Recover, Isolate, AttemptOver, Lists,
      CastOutIfKnown;
    var id, r, code := a.identity, a.identity.requestId, AcceptanceCode(acceptance);
    var idle := MarkIdle(s, id.workerId, id.generation);
    MarkMarks(s, id.workerId, id.generation, Idle, None);
    var s1 := Marked(s, id.workerId, id.generation, Idle, None);
    MarkedKeepsUnique(s, id.workerId, id.generation, Idle, None);
    MarkedKeepsListing(s, id, ids);
    IsolateCasts(s1, id.workerId, id.generation, ids);
    var isolated := idle + Isolate(s1, id.workerId, id.generation, ids);
    ReplayAppend(s, idle, Isolate(s1, id.workerId, id.generation, ids));
    var out := CastOutIfKnown(s1, id.workerId, id.generation);
    CastingKeepsUnique(s1, id.workerId, id.generation);
    NotesThenShuts(out, id, AttemptSuppressed, Some(code), Failed, code);
    var rest := [Bookkeeping(UpdateAttempt(r, id.attemptId, AttemptSuppressed, Some(code)))]
                + Finalize(out, r, Failed, code);
    ReplayAppend(s, isolated, rest);
    assert Continue(cfg, s, a, acceptance, aborted, ids).ops == isolated + rest;
  }

  lemma MarkedKeepsListing(s: Store, id: Identity, ids: seq<LeaseId>)
    requires Lists(s, id.workerId, id.generation, ids)
    ensures Lists(Marked(s, id.workerId, id.generation, Idle, None), id.workerId, id.generation, ids)
  {
    var t := Marked(s, id.workerId, id.generation, Idle, None);
    assert forall lease :: HoldsLease(t, id.workerId, id.generation, lease)
                      <==> HoldsLease(s, id.workerId, id.generation, lease);
  }

  lemma CastingKeepsUnique(s: Store, w: WorkerId, g: Generation)
    requires UniqueLeaseIds(s.leases)
    ensures UniqueLeaseIds(CastOutIfKnown(s, w, g).leases)
  {}
}
