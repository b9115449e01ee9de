/**
 * The coordinator's atomic steps. JavaScript runs the code between two awaits
 * to completion, so each function here takes the durable state such a stretch
 * starts from and yields the durable writes it issues, in order, and how the
 * stretch ends. Fresh identifiers, the clock, the worker the registry picks and
 * the order in which a generation's leases are listed are parameters.
 */
module Steps {
  import opened Options
  import opened RequestStages
  import opened DurableTypes
  import opened Store
  import opened RecoveryPlan
  import opened Tallies

  datatype Config = Config(
    manifestDigest: string, formatVersion: string, segmentVramMB: seq<nat>, minimumVramMB: nat,
    maxRetries: nat, leaseTtlMs: nat, maxCheckpointBytes: nat, cancelAckDeadlineMs: nat)

  datatype Step<T> = Step(ops: seq<Op>, out: T)

  // --- Matching a result to the live lease ---

  datatype Mismatch =
    | NoActiveLease | PastExpiry | OtherAttempt | OtherLease | OtherWorker | OtherGeneration | OtherSegment

  function Match(s: Store, id: Identity, now: nat): Option<Mismatch> {
    if id.requestId !in s.leases then Some(NoActiveLease)
    else
      var l := s.leases[id.requestId];
      if now > l.expiresAt then Some(PastExpiry)
      else if id.attemptId != l.attemptId then Some(OtherAttempt)
      else if id.leaseId != l.leaseId then Some(OtherLease)
      else if id.workerId != l.workerId then Some(OtherWorker)
      else if id.generation != l.generation then Some(OtherGeneration)
      else if id.segment != l.segment then Some(OtherSegment)
      else None
  }

  // --- Shared stretches ---

  function Reclaim(s: Store, id: RequestId): seq<Op> {
    if id in s.leases then [Leases(DeleteLease(s.leases[id].leaseId))] else []
  }

  function SetErrorIfFailed(id: RequestId, stage: Stage, code: ErrorCode): seq<Op> {
    if stage == Failed then [Requests(SetError(id, code))] else []
  }

  /** Leave a request alone if it is terminal or the edge does not exist. */
  function Finalize(s: Store, id: RequestId, stage: Stage, code: ErrorCode): seq<Op> {
    if id !in s.requests || Terminal(s.requests[id].stage) || !Legal(s.requests[id].stage, stage) then []
    else
      [Requests(Transition(id, s.requests[id].stage, stage))] + SetErrorIfFailed(id, stage, code)
      + [Checkpoints(DeleteCheckpoints(id))] + Reclaim(s, id)
  }

  function DeleteLeases(ids: seq<LeaseId>): (r: seq<Op>)
    ensures |r| == |ids|
  {
    if ids == [] then [] else [Leases(DeleteLease(ids[0]))] + DeleteLeases(ids[1..])
  }

  predicate HoldsLease(s: Store, w: WorkerId, g: Generation, lease: LeaseId) {
    exists r :: r in s.leases && s.leases[r].leaseId == lease
      && s.leases[r].workerId == w && s.leases[r].generation == g
  }

  /** `ids` lists the leases of one worker generation, in whatever order. */
  ghost predicate Lists(s: Store, w: WorkerId, g: Generation, ids: seq<LeaseId>) {
    forall lease :: lease in ids <==> HoldsLease(s, w, g, lease)
  }

  /** The leases of the generation a worker is stored under, if it is stored. */
  ghost predicate ListsOwn(s: Store, w: WorkerId, ids: seq<LeaseId>) {
    w in s.workers ==> Lists(s, w, s.workers[w].generation, ids)
  }

  function RevokeWorker(s: Store, w: WorkerId, g: Generation): seq<Op> {
    if ViewIsCurrent(s, w, g) then [Workers(SetWorkerStage(w, g, Revoked)), Workers(DeleteWorker(w))] else []
  }

  predicate KnowsGeneration(s: Store, g: Generation) {
    exists w :: w in s.workers && s.workers[w].generation == g && s.workers[w].stage != Revoked
  }

  /** Revoke a live generation and reclaim the leases listed for it. */
  function Isolate(s: Store, w: WorkerId, g: Generation, ids: seq<LeaseId>): seq<Op> {
    if KnowsGeneration(s, g) then RevokeWorker(s, w, g) + DeleteLeases(ids) else []
  }

  /** A worker is marked only under the generation that is stored now. */
  function Mark(s: Store, w: WorkerId, g: Generation, stage: WorkerStage, current: Option<nat>): seq<Op> {
    if ViewIsCurrent(s, w, g) then [Workers(SetWorkerStage(w, g, stage)), Workers(SetWorkerSegment(w, g, current))]
        else []
  }

  function MarkIdle(s: Store, w: WorkerId, g: Generation): seq<Op> { Mark(s, w, g, Idle, None) }

  function MarkDisconnected(s: Store, w: WorkerId, g: Generation): seq<Op> { Mark(s, w, g, Disconnected, None) }

  // --- Submission ---

  datatype SubmitOutcome = Existing(id: RequestId) | Started(id: RequestId)

  function NewRequest(cfg: Config, id: RequestId, now: nat, timeoutMs: Option<nat>): Request {
    Request(id, Accepted, 0, |cfg.segmentVramMB|, cfg.manifestDigest, 0, now, timeoutMs, None)
  }

  function Submit(cfg: Config, s: Store, key: Option<IdempotencyKey>, newId: RequestId,
                  now: nat, timeoutMs: Option<nat>): Step<SubmitOutcome>
  {
    if key.Some? && key.value in s.books.keys then Step([], Existing(s.books.keys[key.value]))
    else
      Step((if key.Some? then [Bookkeeping(BindKey(key.value, newId))] else [])
           + [Requests(CreateRequest(NewRequest(cfg, newId, now, timeoutMs))),
              Requests(Transition(newId, Accepted, Queued))],
           Started(newId))
  }

  // --- Dispatching one attempt ---

  datatype Assignment = Assignment(identity: Identity, manifestDigest: string, checkpoint: Option<Checkpoint>)

  datatype Turn =
    | ReturnNull            // the attempt loop gives up on this segment
    | ReturnResult          // the segment has its result
    | Sleep                 // wait for the retry delay, then try again
    | Execute(assignment: Assignment)
    | Throw(code: ErrorCode)

  predicate Candidate(w: Worker, requiredVramMB: nat) {
    w.stage == Idle && w.vramMB >= requiredVramMB
  }

  predicate AtLeastAsGood(a: Worker, b: Worker) {
    a.tier < b.tier || (a.tier == b.tier && a.vramMB >= b.vramMB)
  }

  /** The registry's choice: lowest tier first, then most VRAM, any of the best. */
  ghost predicate Picked(s: Store, requiredVramMB: nat, pick: Option<WorkerId>) {
    if pick.None? then forall w :: w in s.workers ==> !Candidate(s.workers[w], requiredVramMB)
    else
      && pick.value in s.workers
      && Candidate(s.workers[pick.value], requiredVramMB)
      && forall w :: w in s.workers && Candidate(s.workers[w], requiredVramMB) ==>
           AtLeastAsGood(s.workers[pick.value], s.workers[w])
  }

  predicate PredecessorUsable(s: Store, cfg: Config, id: RequestId, segment: nat, now: nat) {
    segment == 0 ||
    (&& (id, segment - 1) in s.checkpoints
     && s.checkpoints[(id, segment - 1)].requestId == id
     && s.checkpoints[(id, segment - 1)].segment == segment - 1
     && s.checkpoints[(id, segment - 1)].manifestDigest == cfg.manifestDigest
     && !Expired(s.checkpoints[(id, segment - 1)], now))
  }

  /** Only an expired checkpoint of the right identity is deleted on its own. */
  function DropExpired(s: Store, cfg: Config, id: RequestId, segment: nat): seq<Op> {
    if segment > 0 && (id, segment - 1) in s.checkpoints
       && s.checkpoints[(id, segment - 1)].requestId == id
       && s.checkpoints[(id, segment - 1)].segment == segment - 1
       && s.checkpoints[(id, segment - 1)].manifestDigest == cfg.manifestDigest
    then [Checkpoints(DeleteCheckpoint(id, segment - 1))] else []
  }

  function Requeue(s: Store, id: RequestId): seq<Op> {
    if TransitionFires(s, id, RetryWait) then [Requests(Transition(id, RetryWait, Queued))] else []
  }

  function Issue(cfg: Config, w: Worker, id: RequestId, segment: nat, attempt: AttemptId, lease: LeaseId,
                 now: nat): Lease
  {
    Lease(lease, id, attempt, w.id, w.generation, segment, cfg.manifestDigest, now, now + cfg.leaseTtlMs)
  }

  function AttemptOf(l: Lease): Attempt {
    Attempt(l.requestId, l.attemptId, l.leaseId, l.workerId, l.generation, l.segment, None, None)
  }

  function IdentityOf(l: Lease): Identity {
    Identity(l.requestId, l.attemptId, l.leaseId, l.workerId, l.generation, l.segment)
  }

  /** Issue the lease, then claim the queued request; the lease stays if that fails. */
  function Assign(cfg: Config, s: Store, id: RequestId, segment: nat, w: Worker,
                  attempt: AttemptId, lease: LeaseId, now: nat): Step<Turn>
  {
    var l := Issue(cfg, w, id, segment, attempt, lease, now);
    var issued := [Leases(PutLease(l)), Bookkeeping(AppendAttempt(AttemptOf(l)))];
    if !TransitionFires(s, id, Queued) then Step(issued, Throw(StateTransitionViolation))
    else
      Step(issued
           + [Requests(Transition(id, Queued, Leased)), Requests(Transition(id, Leased, Running))]
           + Mark(s, w.id, w.generation, Busy, Some(segment)),
           Execute(Assignment(IdentityOf(l), cfg.manifestDigest,
                              if segment > 0 && (id, segment - 1) in s.checkpoints
                              then Some(s.checkpoints[(id, segment - 1)]) else None)))
  }

  function Dispatch(cfg: Config, s: Store, id: RequestId, segment: nat, attempt: nat, aborted: bool,
                    pick: Option<WorkerId>, attemptId: AttemptId, lease: LeaseId, now: nat): Step<Turn>
    requires pick.Some? ==> pick.value in s.workers
  {
    if attempt > cfg.maxRetries then Step([], ReturnNull)
    else if aborted then Step([], Throw(UserCancellation))
    else if id !in s.requests || Terminal(s.requests[id].stage) then Step([], ReturnNull)
    else if id in s.cancellations then Step(Finalize(s, id, Cancelled, UserCancellation), ReturnNull)
    else
      var requeue := Requeue(s, id);
      var s1 := Replay(s, requeue);
      if !PredecessorUsable(s, cfg, id, segment, now) then
        Step(requeue + DropExpired(s, cfg, id, segment) + Finalize(s1, id, Failed, CheckpointIntegrityMismatch),
             ReturnNull)
      else if pick.None? then
        if attempt < cfg.maxRetries then Step(requeue, Sleep)
        else Step(requeue + Finalize(s1, id, Failed, WorkerDisconnected), ReturnNull)
      else
        var granted := Assign(cfg, s1, id, segment, s.workers[pick.value], attemptId, lease, now);
        Step(requeue + granted.ops, granted.out)
  }

  // --- Accepting a result ---

  datatype Produced = NoOutput | BadOutput | Output(tokens: seq<nat>, text: string)

  datatype Relayed = NoCheckpoint | BadCheckpoint | Envelope(checkpoint: Checkpoint)

  datatype WorkerResult =
    | BadEnvelope
    | WorkerResult(identity: Identity, relayed: Relayed, produced: Produced)

  datatype Acceptance =
    | AcceptedFinal
    | AcceptedCheckpoint(checkpoint: Checkpoint)
    | AcceptCancelled
    | IdentityMismatch(reason: Mismatch)
    | CheckpointRejected
    | CheckpointConflict
    | ProtocolError
    | OutputMissing
    | Duplicate

  datatype Entry = Settled(acceptance: Acceptance) | Validate(identity: Identity, checkpoint: Checkpoint)

  function Complete(s: Store, id: Identity, total: nat, tokens: seq<nat>, text: string): Step<Entry> {
    var r := id.requestId;
    if r in s.results then Step(Reclaim(s, r), Settled(Duplicate))
    else if TransitionFires(s, r, Running) then
      Step([Commit(r, Running, Result(r, tokens, text, total))] + Reclaim(s, r)
           + [Bookkeeping(UpdateAttempt(r, id.attemptId, AttemptCompleted, None)), Checkpoints(DeleteCheckpoints(r))],
           Settled(AcceptedFinal))
    else Step(Reclaim(s, r), Settled(ProtocolError))
  }

  /** Up to the integrity check of the checkpoint, which is awaited. */
  function AcceptEntry(cfg: Config, s: Store, result: WorkerResult, now: nat, ids: seq<LeaseId>): Step<Entry> {
    if result.BadEnvelope? then Step([], Settled(ProtocolError))
    else
      var id := result.identity;
      var r := id.requestId;
      if r !in s.requests then Step([], Settled(ProtocolError))
      else if r in s.cancellations || s.requests[r].stage == Cancelled then
        Step(Finalize(s, r, Cancelled, UserCancellation), Settled(AcceptCancelled))
      else if Match(s, id, now).Some? then Step([], Settled(IdentityMismatch(Match(s, id, now).value)))
      else if id.segment + 1 == s.requests[r].totalSegments then
        match result.produced
        case NoOutput => Step([], Settled(OutputMissing))
        case BadOutput => Step([], Settled(ProtocolError))
        case Output(tokens, text) => Complete(s, id, s.requests[r].totalSegments, tokens, text)
      else
        match result.relayed
        case NoCheckpoint => Step([], Settled(ProtocolError))
        case BadCheckpoint => Step(Isolate(s, id.workerId, id.generation, ids), Settled(CheckpointRejected))
        case Envelope(c) =>
          if |c.payload| > cfg.maxCheckpointBytes
          then Step(Isolate(s, id.workerId, id.generation, ids), Settled(CheckpointRejected))
          else Step([], Validate(id, c))
  }

  /** What the integrity check demands besides the digest of the payload. */
  predicate EnvelopeMatches(cfg: Config, id: Identity, c: Checkpoint, now: nat) {
    && c.requestId == id.requestId
    && c.segment == id.segment
    && c.workerId == id.workerId
    && c.generation == id.generation
    && c.manifestDigest == cfg.manifestDigest
    && c.formatVersion == cfg.formatVersion
    && |c.payload| <= cfg.maxCheckpointBytes
    && !Expired(c, now)
  }

  function Max(a: nat, b: nat): nat { if a < b then b else a }

  /** The checkpoint is stored and the attempt closed; the lease is reclaimed next. */
  function Relay(id: Identity, c: Checkpoint): seq<Op> {
    [Checkpoints(PutCheckpoint(c)), Bookkeeping(UpdateAttempt(id.requestId, id.attemptId, AttemptCompleted, None))]
  }

  /**
   * After the await: everything is checked again before the checkpoint is
   * stored. `intact` is the verdict on the payload digest.
   */
  function AcceptCommit(cfg: Config, s: Store, id: Identity, c: Checkpoint, entered: nat, intact: bool,
                        now: nat, ids: seq<LeaseId>): Step<Acceptance>
  {
    var r := id.requestId;
    var commitNow := Max(entered, now);
    if !(EnvelopeMatches(cfg, id, c, entered) && intact) then
      Step(Isolate(s, id.workerId, id.generation, ids), CheckpointRejected)
    else if r in s.cancellations then Step(Finalize(s, r, Cancelled, UserCancellation), AcceptCancelled)
    else if Match(s, id, commitNow).Some? then Step([], IdentityMismatch(Match(s, id, commitNow).value))
    else if !TransitionFires(s, r, Running) then Step([], ProtocolError)
    else if Expired(c, commitNow) then Step([], CheckpointRejected)
    else if (r, id.segment) in s.checkpoints && s.checkpoints[(r, id.segment)].payloadDigest != c.payloadDigest then
      Step(Isolate(s, id.workerId, id.generation, ids), CheckpointConflict)
    else
      var reclaim := Match(Replay(s, Relay(id, c)), id, commitNow);
      if reclaim.Some? then Step(Relay(id, c), IdentityMismatch(reclaim.value))
      else Step(Relay(id, c) + [Leases(DeleteLease(id.leaseId))], AcceptedCheckpoint(c))
  }

  function AcceptanceCode(a: Acceptance): ErrorCode {
    match a
    case IdentityMismatch(_) => ResultIdentityMismatch
    case CheckpointRejected => CheckpointIntegrityMismatch
    case CheckpointConflict => CheckpointIntegrityMismatch
    case AcceptCancelled => UserCancellation
    case _ => ProtocolViolation
  }

  // --- After the executor settled ---

  /** The worker is idle again, the lease reclaimed, the attempt closed as failed. */
  function SettleFailure(s: Store, id: Identity, code: ErrorCode): seq<Op> {
    MarkIdle(s, id.workerId, id.generation) + Reclaim(s, id.requestId)
    + [Bookkeeping(UpdateAttempt(id.requestId, id.attemptId, AttemptFailed, Some(code)))]
  }

  /** The handler for an execution that threw, or whose continuation did. */
  function Recover(cfg: Config, s: Store, a: Assignment, code: ErrorCode, aborted: bool): Step<Turn> {
    var id := a.identity;
    var r := id.requestId;
    var idle := MarkIdle(s, id.workerId, id.generation);
    if aborted then Step(idle, Throw(code))
    else
      var settled := SettleFailure(s, id, code);
      if Retryable(code) && r in s.requests && s.requests[r].retryCount < cfg.maxRetries then
        var counted := settled
          + (if Isolatable(code) then MarkDisconnected(s, id.workerId, id.generation) else [])
          + [Requests(SetRetryCount(r, s.requests[r].retryCount + 1))];
        if s.requests[r].stage == Running then Step(counted + [Requests(Transition(r, Running, RetryWait))], Sleep)
        else Step(counted, Throw(StateTransitionViolation))
      else
        Step(settled + Finalize(Replay(s, settled), r, Failed, code), ReturnNull)
  }

  /** The continuation once `acceptResult` has answered. */
  function Continue(cfg: Config, s: Store, a: Assignment, acceptance: Acceptance, aborted: bool,
                    ids: seq<LeaseId>): Step<Turn>
  {
    var id := a.identity;
    var r := id.requestId;
    var idle := MarkIdle(s, id.workerId, id.generation);
    var s1 := Replay(s, idle);
    match acceptance
    case AcceptedFinal => Step(idle, ReturnResult)
    case Duplicate => Step(idle, ReturnResult)
    case AcceptedCheckpoint(_) =>
      if TransitionFires(s, r, Running) then Step(idle + [Requests(Transition(r, Running, Queued))], ReturnResult)
      else
        var recovered := Recover(cfg, s1, a, StateTransitionViolation, aborted);
        Step(idle + recovered.ops, recovered.out)
    case AcceptCancelled =>
      Step(idle + [Bookkeeping(UpdateAttempt(r, id.attemptId, AttemptCancelled, Some(UserCancellation)))]
           + Finalize(s1, r, Cancelled, UserCancellation), ReturnNull)
    case _ =>
      var isolated := idle + Isolate(s1, id.workerId, id.generation, ids);
      var code := AcceptanceCode(acceptance);
      Step(isolated + [Bookkeeping(UpdateAttempt(r, id.attemptId, AttemptSuppressed, Some(code)))]
           + Finalize(Replay(s, isolated), r, Failed, code), ReturnNull)
  }

  // --- Between segments, and at the end of a run ---

  datatype LoopTurn = EnterSegment | LeaveLoop | LoopThrow(code: ErrorCode)

  function SegmentHead(s: Store, id: RequestId, segment: nat, total: nat, aborted: bool): Step<LoopTurn> {
    if segment >= total then Step([], LeaveLoop)
    else if aborted then Step([], LoopThrow(UserCancellation))
    else if id !in s.requests || Terminal(s.requests[id].stage) then Step([], LeaveLoop)
    else if id in s.cancellations then Step(Finalize(s, id, Cancelled, UserCancellation), LeaveLoop)
    else Step([], EnterSegment)
  }

  function SegmentTail(s: Store, id: RequestId, segment: nat, got: bool): Step<LoopTurn> {
    if !got || id !in s.requests || s.requests[id].stage == Completed then Step([], LeaveLoop)
    else if s.requests[id].stage == Cancelled || id in s.cancellations then
      Step(Finalize(s, id, Cancelled, UserCancellation), LeaveLoop)
    else
      Step([Requests(SetCurrentSegment(id, segment + 1)),
            Bookkeeping(PutCursor(Cursor(id, segment, s.requests[id].totalSegments)))],
           EnterSegment)
  }

  function Acknowledge(s: Store, id: RequestId, now: nat): seq<Op> {
    if id in s.cancellations && s.cancellations[id].acknowledgedAt.None?
       && id in s.requests && s.requests[id].stage == Cancelled && id !in s.leases
    then [PutCancellation(id, s.cancellations[id].(acknowledgedAt := Some(now)))] else []
  }

  datatype AbortKind = ByUser | ByDeadline | ByOwnershipLoss

  /** How a run that threw is closed; a replaced recovery owner writes nothing. */
  function CloseThrown(s: Store, id: RequestId, code: ErrorCode, kind: AbortKind): seq<Op> {
    if code == UserCancellation && kind == ByOwnershipLoss then []
    else if code == UserCancellation && kind == ByDeadline then Finalize(s, id, Failed, DeadlineExceeded)
    else if code == UserCancellation then Finalize(s, id, Cancelled, UserCancellation)
    else Finalize(s, id, Failed, code)
  }

  /** A run that ended without a result and without an exception failed its request. */
  function Closing(s: Store, id: RequestId, thrown: Option<ErrorCode>, kind: AbortKind): seq<Op> {
    if thrown.Some? then CloseThrown(s, id, thrown.value, kind) else Finalize(s, id, Failed, RuntimeTransient)
  }

  function EndRun(s: Store, id: RequestId, thrown: Option<ErrorCode>, kind: AbortKind, now: nat): seq<Op> {
    var closed := Closing(s, id, thrown, kind);
    closed + Acknowledge(Replay(s, closed), id, now)
  }

  // --- Failure messages, cancellation, workers ---

  function FailureSettled(s: Store, id: Identity, code: ErrorCode): seq<Op> {
    [Bookkeeping(UpdateAttempt(id.requestId, id.attemptId, AttemptFailed, Some(code)))] + Reclaim(s, id.requestId)
  }

  function WorkerFailure(s: Store, id: Identity, code: ErrorCode, now: nat, ids: seq<LeaseId>): seq<Op> {
    var r := id.requestId;
    if r in s.cancellations then
      [Bookkeeping(UpdateAttempt(r, id.attemptId, AttemptCancelled, Some(UserCancellation)))]
      + Finalize(s, r, Cancelled, UserCancellation)
    else if Match(s, id, now).Some? then []
    else
      var settled := FailureSettled(s, id, code);
      settled + (if Isolatable(code) then Isolate(Replay(s, settled), id.workerId, id.generation, ids) else [])
  }

  datatype Disposition =
    | UnknownRequest | CancelledNow | PendingStop | AlreadyCancelled | AlreadyCompleted | AlreadyFailed

  /** The cancellation is durable before anything else is written. */
  function CancelPrefix(s: Store, id: RequestId, record: Cancellation): seq<Op>
    requires id in s.requests
  {
    [PutCancellation(id, record)]
    + (if id in s.leases
       then [Bookkeeping(UpdateAttempt(id, s.leases[id].attemptId, AttemptCancelled, Some(UserCancellation)))] else [])
    + (if s.requests[id].stage == Accepted then [Requests(Transition(id, Accepted, Queued))] else [])
  }

  function CancelRequest(cfg: Config, s: Store, id: RequestId, now: nat, inFlight: bool): Step<Disposition> {
    if id !in s.requests then Step([], UnknownRequest)
    else if s.requests[id].stage == Completed then Step([], AlreadyCompleted)
    else if s.requests[id].stage == Failed then Step([], AlreadyFailed)
    else
      var existing := id in s.cancellations;
      var record := if existing then s.cancellations[id] else Cancellation(id, now, cfg.cancelAckDeadlineMs, None);
      var first := CancelPrefix(s, id, record);
      var stopped := first + Finalize(Replay(s, first), id, Cancelled, UserCancellation);
      var idle := !existing && !inFlight && id !in s.leases;
      Step(if idle then stopped + [PutCancellation(id, record.(acknowledgedAt := Some(now)))] else stopped,
           if existing then AlreadyCancelled else if idle then CancelledNow else PendingStop)
  }

  datatype RegisterOutcome =
    | Refused
    | Created(generation: Generation)
    | Updated(generation: Generation)
    | Reconnected(previous: Generation, generation: Generation)

  /** The registry's part of a registration: refresh, replace or create the record. */
  function RegistryWrites(s: Store, w: WorkerId, tier: nat, vramMB: nat, connection: string,
                          newGeneration: Generation, now: nat): seq<Op>
  {
    var created := Workers(PutWorker(Worker(w, newGeneration, connection, tier, vramMB, Idle, now, None)));
    if w !in s.workers then [created]
    else
      var current := s.workers[w];
      if current.connectionId == connection then
        [Workers(PutWorker(current.(tier := tier, vramMB := vramMB,
                                    stage := if current.stage == Revoked then Idle else current.stage)))]
      else RevokeWorker(s, w, current.generation) + [created]
  }

  function RegistryOutcome(s: Store, w: WorkerId, connection: string, newGeneration: Generation): RegisterOutcome {
    if w !in s.workers then Created(newGeneration)
    else if s.workers[w].connectionId == connection then Updated(s.workers[w].generation)
    else Reconnected(s.workers[w].generation, newGeneration)
  }

  /** A reconnect reclaims the leases of the generation it replaced. */
  function Register(cfg: Config, s: Store, w: WorkerId, tier: nat, vramMB: nat, connection: string,
                    newGeneration: Generation, now: nat, ids: seq<LeaseId>): Step<RegisterOutcome>
  {
    if vramMB < cfg.minimumVramMB then Step([], Refused)
    else
      var writes := RegistryWrites(s, w, tier, vramMB, connection, newGeneration, now);
      var outcome := RegistryOutcome(s, w, connection, newGeneration);
      Step(if outcome.Reconnected? then writes + DeleteLeases(ids) else writes, outcome)
  }

  function RemoveWorker(s: Store, w: WorkerId, ids: seq<LeaseId>): seq<Op> {
    if w in s.workers then RevokeWorker(s, w, s.workers[w].generation) + DeleteLeases(ids) else []
  }

  function Heartbeat(s: Store, w: WorkerId, g: Generation, now: nat): seq<Op> {
    if !ViewIsCurrent(s, w, g) then []
    else
      [Workers(SetHeartbeat(w, g, now))]
      + (if s.workers[w].stage == Disconnected then [Workers(SetWorkerStage(w, g, Idle))] else [])
  }

  /** The heartbeat monitor's treatment of one worker it found silent. */
  function TimeOut(s: Store, w: WorkerId, timeoutMs: nat, now: nat, ids: seq<LeaseId>): seq<Op> {
    if w in s.workers && s.workers[w].stage != Revoked && now > s.workers[w].lastHeartbeat + timeoutMs
    then MarkDisconnected(s, w, s.workers[w].generation) + DeleteLeases(ids) else []
  }

  // --- Recovery ---

  datatype RecoveryOutcome =
    | Missing
    | OwnedByPeer(ownership: Ownership)
    | RecoveredTerminal(stage: Stage)
    | WaitOwner(lease: Lease, deadlineAt: Option<nat>)
    | StateChanged(now: Option<Stage>)   // another write came between the plan and its execution
    | ResumeClaimed(ownership: Ownership, segment: nat, checkpoint: Option<Checkpoint>, deadlineAt: Option<nat>)

  function StoredLease(s: Store, id: RequestId): Option<Lease> {
    if id in s.leases then Some(s.leases[id]) else None
  }

  /** The checkpoints of one request, each once, in whatever order the store lists them. */
  ghost predicate ListsCheckpoints(s: Store, id: RequestId, cs: seq<Checkpoint>) {
    multiset(cs) == Values(OwnedBy(s.checkpoints, id))
  }

  lemma ListedCheckpoints(s: Store, id: RequestId, cs: seq<Checkpoint>)
    requires ListsCheckpoints(s, id, cs)
    ensures forall c :: c in cs <==> exists k :: k in s.checkpoints && s.checkpoints[k] == c && c.requestId == id
  {
    forall c ensures c in cs <==> exists k :: k in s.checkpoints && s.checkpoints[k] == c && c.requestId == id {
      assert c in cs <==> c in multiset(cs);
      ValuesHold(OwnedBy(s.checkpoints, id), c);
      if k :| k in s.checkpoints && s.checkpoints[k] == c && c.requestId == id {
        assert k in OwnedBy(s.checkpoints, id) && OwnedBy(s.checkpoints, id)[k] == c;
      }
    }
  }

  function SnapshotOf(s: Store, id: RequestId, cs: seq<Checkpoint>): Snapshot
    requires id in s.requests
  {
    Snapshot(s.requests[id], StoredLease(s, id), cs, id in s.cancellations)
  }

  function Terminalize(s: Store, id: RequestId, stage: Stage, code: ErrorCode): seq<Op> {
    if id !in s.requests || Terminal(s.requests[id].stage) then []
    else
      var from := s.requests[id].stage;
      (if from == Accepted then [Requests(Transition(id, Accepted, Queued))] else [])
      + [Requests(Transition(id, if from == Accepted then Queued else from, stage))]
      + SetErrorIfFailed(id, stage, code) + [Checkpoints(DeleteCheckpoints(id))]
  }

  function ClosePlan(s: Store, id: RequestId, owner: OwnerId, stage: Stage, code: ErrorCode): Step<RecoveryOutcome> {
    Step(Reclaim(s, id) + Terminalize(s, id, stage, code) + [Bookkeeping(Release(id, owner))], RecoveredTerminal(stage))
  }

  /** What a plan writes once the claim is taken. */
  function PlanStep(s: Store, id: RequestId, owner: OwnerId, o: Ownership, plan: Plan): Step<RecoveryOutcome> {
    match plan
    case AlreadyTerminal(stage) => Step([Bookkeeping(Release(id, owner))], RecoveredTerminal(stage))
    case WaitActiveOwner(lease, deadline) => Step([Bookkeeping(Release(id, owner))], WaitOwner(lease, deadline))
    case Cancel(_) => ClosePlan(s, id, owner, Cancelled, UserCancellation)
    case Fail(code, _) => ClosePlan(s, id, owner, Failed, code)
    case Resume(from, segment, checkpoint, _, normalize, deadline) =>
      Step(Reclaim(s, id) + (if normalize then [Requests(Transition(id, from, Queued))] else []),
           ResumeClaimed(o, segment, checkpoint, deadline))
  }

  /** Claim, decide and apply: one stretch without an await. */
  function BeginRecovery(s: Store, id: RequestId, owner: OwnerId, now: nat, ttlMs: nat, maxRetries: nat,
                         digest: string, cs: seq<Checkpoint>): Step<RecoveryOutcome>
  {
    if id !in s.requests then Step([], Missing)
    else if Terminal(s.requests[id].stage) then Step([], RecoveredTerminal(s.requests[id].stage))
    else
      var o := Ownership(id, owner, now, now + ttlMs);
      if !ClaimFires(s.books.ownerships, o, now) then Step([], OwnedByPeer(s.books.ownerships[id]))
      else
        var applied := PlanStep(s, id, owner, o, Decide(SnapshotOf(s, id, cs), now, maxRetries, digest));
        Step([Bookkeeping(Claim(o, now))] + applied.ops, applied.out)
  }
}
