/**
 * Durable state as a value, the single-key writes that change it, and their
 * effect. `Apply` is the reference behaviour of the in-memory repository.
 */
module Store {
  import opened Options
  import opened RequestStages
  import opened DurableTypes

  /** The records no other storage boundary depends on. */
  datatype Books = Books(
    keys: map<IdempotencyKey, RequestId>,
    attempts: map<RequestId, seq<Attempt>>,
    ownerships: map<RequestId, Ownership>,
    cursors: map<RequestId, Cursor>)

  datatype Store = Store(
    requests: map<RequestId, Request>,
    leases: map<RequestId, Lease>,
    checkpoints: map<(RequestId, nat), Checkpoint>,
    results: map<RequestId, Result>,
    cancellations: map<RequestId, Cancellation>,
    workers: map<WorkerId, Worker>,
    books: Books)

  const Empty: Store := Store(map[], map[], map[], map[], map[], map[], Books(map[], map[], map[], map[]))

  // One datatype of writes for each storage boundary.

  datatype RequestWrite =
    | CreateRequest(record: Request)
    | Transition(id: RequestId, expected: Stage, next: Stage)
    | SetCurrentSegment(id: RequestId, segment: nat)
    | SetRetryCount(id: RequestId, count: nat)
    | SetError(id: RequestId, code: ErrorCode)

  datatype LeaseWrite =
    | PutLease(lease: Lease)
    | DeleteLease(leaseId: LeaseId)

  datatype CheckpointWrite =
    | PutCheckpoint(checkpoint: Checkpoint)
    | DeleteCheckpoint(id: RequestId, segment: nat)
    | DeleteCheckpoints(id: RequestId)
    | CollectExpired(now: nat)

  datatype WorkerWrite =
    | PutWorker(worker: Worker)
    | SetWorkerStage(workerId: WorkerId, generation: Generation, stage: WorkerStage)
    | SetWorkerSegment(workerId: WorkerId, generation: Generation, current: Option<nat>)
    | SetHeartbeat(workerId: WorkerId, generation: Generation, at: nat)
    | DeleteWorker(workerId: WorkerId)

  datatype BookWrite =
    | BindKey(key: IdempotencyKey, id: RequestId)
    | AppendAttempt(attempt: Attempt)
    | UpdateAttempt(id: RequestId, attemptId: AttemptId, outcome: AttemptOutcome, error: Option<ErrorCode>)
    | Claim(ownership: Ownership, now: nat)
    | Release(id: RequestId, ownerId: OwnerId)
    | PutCursor(cursor: Cursor)

  /** One durable write. */
  datatype Op =
    | Requests(request: RequestWrite)
    | Leases(lease: LeaseWrite)
    | Checkpoints(checkpoint: CheckpointWrite)
    | Workers(worker: WorkerWrite)
    | Bookkeeping(book: BookWrite)
    | Commit(id: RequestId, expected: Stage, result: Result)
    | PutCancellation(id: RequestId, cancellation: Cancellation)

  predicate InStage(requests: map<RequestId, Request>, id: RequestId, expected: Stage) {
    id in requests && requests[id].stage == expected
  }

  predicate TransitionFires(s: Store, id: RequestId, expected: Stage) {
    InStage(s.requests, id, expected)
  }

  predicate CommitFires(s: Store, id: RequestId, expected: Stage, result: Result) {
    id !in s.results && TransitionFires(s, id, expected) && result.requestId == id
  }

  /** A claim is refused only while another owner's claim is live. */
  predicate ClaimFires(owned: map<RequestId, Ownership>, o: Ownership, now: nat) {
    !(o.requestId in owned && owned[o.requestId].ownerId != o.ownerId && now < owned[o.requestId].expiresAt)
  }

  predicate ReleaseFires(owned: map<RequestId, Ownership>, id: RequestId, owner: OwnerId) {
    id in owned && owned[id].ownerId == owner
  }

  predicate GenerationStored(workers: map<WorkerId, Worker>, w: WorkerId, g: Generation) {
    w in workers && workers[w].generation == g
  }

  /** A worker view writes through only while its generation is the stored one. */
  predicate ViewIsCurrent(s: Store, w: WorkerId, g: Generation) {
    GenerationStored(s.workers, w, g)
  }

  /**
   * The keys the in-memory `deleteCheckpointsForRequest(id)` removes: slots are
   * named `id:segment` and every name that starts with `id:` goes.
   */
  predicate SharesPrefix(id: RequestId, slotOwner: RequestId) {
    slotOwner == id || id + ":" <= slotOwner
  }

  /** No two requests hold the same lease identifier. */
  predicate UniqueLeaseIds(leases: map<RequestId, Lease>) {
    forall r, q :: r in leases && q in leases && leases[r].leaseId == leases[q].leaseId ==> r == q
  }

  /** No other request holds this lease's identifier. */
  predicate NotElsewhere(leases: map<RequestId, Lease>, lease: Lease) {
    forall r :: r in leases && r != lease.requestId ==> leases[r].leaseId != lease.leaseId
  }

  /** The checkpoints of one request, however they are keyed. */
  function OwnedBy<K>(m: map<K, Checkpoint>, id: RequestId): map<K, Checkpoint> {
    map k | k in m && m[k].requestId == id :: m[k]
  }

  /** The checkpoints whose time to live has run out. */
  function PastTtl<K>(m: map<K, Checkpoint>, now: nat): map<K, Checkpoint> {
    map k | k in m && now >= m[k].createdAt + m[k].ttlMs :: m[k]
  }

  function Patched(a: Attempt, outcome: AttemptOutcome, error: Option<ErrorCode>): Attempt {
    a.(outcome := Some(outcome), error := if error.Some? then error else a.error)
  }

  /** The first attempt with this id is patched; the others stay. */
  function PatchFirst(list: seq<Attempt>, id: AttemptId, outcome: AttemptOutcome,
                      error: Option<ErrorCode>): (r: seq<Attempt>)
    ensures |r| == |list|
  {
    if list == [] then []
    else if list[0].attemptId == id then [Patched(list[0], outcome, error)] + list[1..]
    else [list[0]] + PatchFirst(list[1..], id, outcome, error)
  }

  function ApplyRequest(m: map<RequestId, Request>, op: RequestWrite): map<RequestId, Request> {
    match op
    case CreateRequest(record) => m[record.id := record]
    case Transition(id, expected, next) => if InStage(m, id, expected) then m[id := m[id].(stage := next)] else m
    case SetCurrentSegment(id, segment) => if id in m then m[id := m[id].(currentSegment := segment)] else m
    case SetRetryCount(id, count) => if id in m then m[id := m[id].(retryCount := count)] else m
    case SetError(id, code) => if id in m then m[id := m[id].(lastError := Some(code))] else m
  }

  function ApplyLease(m: map<RequestId, Lease>, op: LeaseWrite): map<RequestId, Lease> {
    match op
    case PutLease(lease) => m[lease.requestId := lease]
    case DeleteLease(leaseId) => map r | r in m && m[r].leaseId != leaseId :: m[r]
  }

  function ApplyCheckpoint(m: map<(RequestId, nat), Checkpoint>, op: CheckpointWrite): map<(RequestId, nat), Checkpoint>
  {
    match op
    case PutCheckpoint(c) => if (c.requestId, c.segment) in m then m else m[(c.requestId, c.segment) := c]
    case DeleteCheckpoint(id, segment) => m - {(id, segment)}
    case DeleteCheckpoints(id) => map k | k in m && !SharesPrefix(id, k.0) :: m[k]
    case CollectExpired(now) => map k | k in m && now < m[k].createdAt + m[k].ttlMs :: m[k]
  }

  function ApplyWorker(m: map<WorkerId, Worker>, op: WorkerWrite): map<WorkerId, Worker> {
    match op
    case PutWorker(w) => m[w.id := w]
    case SetWorkerStage(w, g, stage) => if GenerationStored(m, w, g) then m[w := m[w].(stage := stage)] else m
    case SetWorkerSegment(w, g, current) => if GenerationStored(m, w, g) then m[w := m[w].(currentSegment := current)]
        else m
    case SetHeartbeat(w, g, at) => if GenerationStored(m, w, g) then m[w := m[w].(lastHeartbeat := at)] else m
    case DeleteWorker(w) => m - {w}
  }

  function ApplyBook(b: Books, op: BookWrite): Books {
    match op
    case BindKey(key, id) => if key in b.keys then b else b.(keys := b.keys[key := id])
    case AppendAttempt(a) =>
      b.(attempts := b.attempts[a.requestId := (if a.requestId in b.attempts then b.attempts[a.requestId] else [])
                                + [a]])
    case UpdateAttempt(id, attemptId, outcome, error) =>
      if id in b.attempts
      then b.(attempts := b.attempts[id := PatchFirst(b.attempts[id], attemptId, outcome, error)]) else b
    case Claim(o, now) =>
      if ClaimFires(b.ownerships, o, now) then b.(ownerships := b.ownerships[o.requestId := o]) else b
    case Release(id, owner) =>
      if ReleaseFires(b.ownerships, id, owner) then b.(ownerships := b.ownerships - {id}) else b
    case PutCursor(c) => b.(cursors := b.cursors[c.requestId := c])
  }

  function Apply(s: Store, op: Op): Store {
    match op
    case Requests(o) => s.(requests := ApplyRequest(s.requests, o))
    case Leases(o) => s.(leases := ApplyLease(s.leases, o))
    case Checkpoints(o) => s.(checkpoints := ApplyCheckpoint(s.checkpoints, o))
    case Workers(o) => s.(workers := ApplyWorker(s.workers, o))
    case Bookkeeping(o) => s.(books := ApplyBook(s.books, o))
    case Commit(id, expected, result) =>
      if CommitFires(s, id, expected, result)
      then s.(results := s.results[id := result],
              requests := s.requests[id := s.requests[id].(stage := Completed)]) else s
    case PutCancellation(id, c) => s.(cancellations := s.cancellations[id := c])
  }

  function Replay(s: Store, ops: seq<Op>): Store
    decreases |ops|
  {
    if ops == [] then s else Replay(Apply(s, ops[0]), ops[1..])
  }

  lemma ReplayAppend(s: Store, a: seq<Op>, b: seq<Op>)
    ensures Replay(s, a + b) == Replay(Replay(s, a), b)
    decreases |a|
  {
    if a == [] {
      assert a + b == b;
    } else {
      assert (a + b)[0] == a[0] && (a + b)[1..] == a[1..] + b;
      ReplayAppend(Apply(s, a[0]), a[1..], b);
    }
  }

  lemma ReplaySnoc(s: Store, a: seq<Op>, op: Op)
    ensures Replay(s, a + [op]) == Apply(Replay(s, a), op)
  {
    ReplayAppend(s, a, [op]);
    assert [op][1..] == [];
  }
}
