/** The records the durable coordinator stores, and the messages workers send. */
module DurableTypes {
  import opened Options
  import opened RequestStages
  import opened SafeIntegers

  type RequestId = string
  type WorkerId = string
  type Generation = string
  type LeaseId = string
  type AttemptId = string
  type OwnerId = string
  type IdempotencyKey = string

  datatype ErrorCode =
    | WorkerDisconnected | HeartbeatTimeout | TransportTransient | RuntimeTransient
    | UnsupportedRequest | InvalidInput | ContextOverflow | ModelPreparationFailure
    | UserCancellation | DeadlineExceeded | SegmentTimeout | ProtocolViolation
    | ResultIdentityMismatch | CheckpointIntegrityMismatch | IntegritySecurityFailure
    | UnknownWorker | StaleGeneration | LeaseExpired | RequestNotFound
    | DuplicateCompletion | StateTransitionViolation

  predicate Retryable(code: ErrorCode) {
    code in {WorkerDisconnected, HeartbeatTimeout, TransportTransient, RuntimeTransient,
             ModelPreparationFailure, SegmentTimeout}
  }

  predicate Isolatable(code: ErrorCode) {
    code !in {InvalidInput, UnsupportedRequest, ContextOverflow, UserCancellation,
              DeadlineExceeded, RequestNotFound, DuplicateCompletion,
              StateTransitionViolation, UnknownWorker}
  }

  datatype Request = Request(
    id: RequestId, stage: Stage, currentSegment: nat, totalSegments: nat,
    manifestDigest: string, retryCount: nat, createdAt: nat, timeoutMs: Option<nat>,
    lastError: Option<ErrorCode>)

  datatype AttemptOutcome = AttemptCompleted | AttemptFailed | AttemptCancelled | AttemptSuppressed

  datatype Attempt = Attempt(
    requestId: RequestId, attemptId: AttemptId, leaseId: LeaseId, workerId: WorkerId,
    generation: Generation, segment: nat, outcome: Option<AttemptOutcome>, error: Option<ErrorCode>)

  datatype Lease = Lease(
    leaseId: LeaseId, requestId: RequestId, attemptId: AttemptId, workerId: WorkerId,
    generation: Generation, segment: nat, manifestDigest: string, issuedAt: nat, expiresAt: nat)

  /** The identity a worker echoes; it names no manifest. */
  datatype Identity = Identity(
    requestId: RequestId, attemptId: AttemptId, leaseId: LeaseId, workerId: WorkerId,
    generation: Generation, segment: nat)

  datatype Checkpoint = Checkpoint(
    requestId: RequestId, attemptId: AttemptId, segment: nat, workerId: WorkerId,
    generation: Generation, manifestDigest: string, formatVersion: string,
    payloadDigest: string, createdAt: nat, ttlMs: nat, payload: seq<bv8>)

  datatype Result = Result(requestId: RequestId, tokens: seq<nat>, text: string, segmentsCompleted: nat)

  datatype Cancellation = Cancellation(
    requestId: RequestId, requestedAt: nat, deadlineMs: nat, acknowledgedAt: Option<nat>)

  datatype Ownership = Ownership(requestId: RequestId, ownerId: OwnerId, claimedAt: nat, expiresAt: nat)

  datatype Cursor = Cursor(requestId: RequestId, lastCommitted: nat, total: nat)

  datatype WorkerStage = Idle | Busy | Disconnected | Revoked

  datatype Worker = Worker(
    id: WorkerId, generation: Generation, connectionId: string, tier: nat, vramMB: nat,
    stage: WorkerStage, lastHeartbeat: nat, currentSegment: Option<nat>)

  /** An unusable timing counts as expired, like a time at or past the expiry. */
  predicate Expired(c: Checkpoint, now: nat) {
    c.createdAt + c.ttlMs > MAX_SAFE_INTEGER || now >= c.createdAt + c.ttlMs
  }
}
