/**
 * The discipline the coordinator's callers keep, write by write. The stage
 * compare-and-set, the lease slot and the completion slot of the repository
 * check almost nothing themselves; `Safe` says what every single write must
 * respect, and `Consistent` is what then holds after every single write.
 */
module Discipline {
  import opened Options
  import opened RequestStages
  import opened DurableTypes
  import opened Store

  /** What has happened so far, beyond what the store still shows. */
  datatype History = History(
    issued: map<LeaseId, Lease>,               // every lease ever put
    registered: map<Generation, WorkerId>)     // every worker generation ever put

  datatype World = World(store: Store, past: History)

  const Origin: World := World(Empty, History(map[], map[]))

  function Note(w: World, op: Op): History {
    match op
    case Leases(o) =>
      if o.PutLease? then w.past.(issued := w.past.issued[o.lease.leaseId := o.lease]) else w.past
    case Workers(o) =>
      if o.PutWorker? then w.past.(registered := w.past.registered[o.worker.generation := o.worker.id]) else w.past
    case _ => w.past
  }

  function Do(w: World, op: Op): World { World(Apply(w.store, op), Note(w, op)) }

  function DoAll(w: World, ops: seq<Op>): World
    decreases |ops|
  {
    if ops == [] then w else DoAll(Do(w, ops[0]), ops[1..])
  }

  // --- What a single write must respect ---

  predicate LeaseSafe(w: World, l: Lease) {
    && l.requestId in w.store.requests
    && !Terminal(w.store.requests[l.requestId].stage)
    && l.requestId !in w.store.cancellations
    && l.leaseId !in w.past.issued
    && l.segment < w.store.requests[l.requestId].totalSegments
    && ViewIsCurrent(w.store, l.workerId, l.generation)
    && (l.segment > 0 ==> InputPresent(w.store, l))
  }

  /** The predecessor checkpoint a dispatch runs from: same request, same manifest, unexpired. */
  predicate InputPresent(s: Store, l: Lease)
    requires l.segment > 0
  {
    && (l.requestId, l.segment - 1) in s.checkpoints
    && s.checkpoints[(l.requestId, l.segment - 1)].requestId == l.requestId
    && s.checkpoints[(l.requestId, l.segment - 1)].segment == l.segment - 1
    && s.checkpoints[(l.requestId, l.segment - 1)].manifestDigest == l.manifestDigest
    && !Expired(s.checkpoints[(l.requestId, l.segment - 1)], l.issuedAt)
  }

  predicate RunningUncancelled(s: Store, id: RequestId) {
    TransitionFires(s, id, Running) && id !in s.cancellations
  }

  predicate CheckpointSafe(s: Store, c: Checkpoint) {
    && RunningUncancelled(s, c.requestId)
    && c.requestId in s.leases
    && s.leases[c.requestId].segment == c.segment
    && s.leases[c.requestId].workerId == c.workerId
    && s.leases[c.requestId].generation == c.generation
  }

  predicate CommitSafe(s: Store, id: RequestId, expected: Stage, result: Result) {
    && expected == Running
    && result.requestId == id
    && id in s.requests
    && id !in s.cancellations
    && id in s.leases
    && s.leases[id].segment + 1 == s.requests[id].totalSegments
    && result.segmentsCompleted == s.requests[id].totalSegments
  }

  predicate CancellationSafe(s: Store, id: RequestId, c: Cancellation) {
    && id in s.requests
    && c.requestId == id
    && s.requests[id].stage != Completed && s.requests[id].stage != Failed
    && (c.acknowledgedAt.Some? ==> s.requests[id].stage == Cancelled && id !in s.leases)
    && (id in s.cancellations ==>
          && c.requestedAt == s.cancellations[id].requestedAt
          && (s.cancellations[id].acknowledgedAt.Some? ==> c == s.cancellations[id]))
  }

  predicate RequestSafe(requests: map<RequestId, Request>, op: RequestWrite) {
    match op
    case CreateRequest(r) => r.id !in requests && r.stage == Accepted && r.currentSegment == 0 && r.retryCount == 0
    case Transition(id, expected, next) => InStage(requests, id, expected) ==> Edge(expected, next) && next != Completed
    case SetRetryCount(id, count) => id in requests ==> count == requests[id].retryCount + 1
    case SetCurrentSegment(id, segment) => id in requests ==> segment <= requests[id].totalSegments
    case SetError(_, _) => true
  }

  predicate Safe(w: World, op: Op) {
    match op
    case Requests(o) => RequestSafe(w.store.requests, o)
    case Leases(o) => o.PutLease? ==> LeaseSafe(w, o.lease)
    case Checkpoints(o) => o.PutCheckpoint? ==> CheckpointSafe(w.store, o.checkpoint)
    case Workers(o) =>
      o.PutWorker? && o.worker.generation in w.past.registered ==>
          ViewIsCurrent(w.store, o.worker.id, o.worker.generation)
    case Bookkeeping(_) => true
    case Commit(id, expected, result) => CommitSafe(w.store, id, expected, result)
    case PutCancellation(id, c) => CancellationSafe(w.store, id, c)
  }

  predicate SafeAll(w: World, ops: seq<Op>)
    decreases |ops|
  {
    ops == [] || (Safe(w, ops[0]) && SafeAll(Do(w, ops[0]), ops[1..]))
  }

  // --- What then holds after every single write ---

  ghost predicate RequestsKeyed(s: Store) {
    forall r :: r in s.requests ==> s.requests[r].id == r
  }

  ghost predicate LeasesKeyed(s: Store) {
    forall r :: r in s.leases ==> r in s.requests && s.leases[r].requestId == r
  }

  ghost predicate CheckpointsKeyed(s: Store) {
    forall k :: k in s.checkpoints ==>
      && k.0 in s.requests
      && s.checkpoints[k].requestId == k.0 && s.checkpoints[k].segment == k.1
  }

  ghost predicate CancellationsKeyed(s: Store) {
    forall r :: r in s.cancellations ==> r in s.requests && s.cancellations[r].requestId == r
  }

  ghost predicate WorkersKeyed(s: Store) {
    forall w :: w in s.workers ==> s.workers[w].id == w
  }

  ghost predicate SegmentsInRange(s: Store) {
    forall r :: r in s.requests ==> s.requests[r].currentSegment <= s.requests[r].totalSegments
  }

  /** A result is stored exactly while the stage says so. */
  ghost predicate ResultsMatchStages(s: Store) {
    forall r :: r in s.results <==> r in s.requests && s.requests[r].stage == Completed
  }

  ghost predicate LeasesAreIssued(w: World) {
    && (forall r :: r in w.store.leases ==>
          && w.store.leases[r].leaseId in w.past.issued
          && w.past.issued[w.store.leases[r].leaseId] == w.store.leases[r])
    && (forall i :: i in w.past.issued ==> w.past.issued[i].leaseId == i)
  }

  ghost predicate CancellationsHold(s: Store) {
    forall r :: r in s.cancellations && r in s.requests ==>
      && s.requests[r].stage != Completed
      && (s.cancellations[r].acknowledgedAt.Some? ==> s.requests[r].stage == Cancelled && r !in s.leases)
  }

  ghost predicate GenerationsAreOwned(w: World) {
    forall x :: x in w.store.workers ==>
      && w.store.workers[x].generation in w.past.registered
      && w.past.registered[w.store.workers[x].generation] == x
  }

  ghost predicate Consistent(w: World) {
    && RequestsKeyed(w.store)
    && LeasesKeyed(w.store)
    && CheckpointsKeyed(w.store)
    && CancellationsKeyed(w.store)
    && WorkersKeyed(w.store)
    && SegmentsInRange(w.store)
    && ResultsMatchStages(w.store)
    && LeasesAreIssued(w)
    && CancellationsHold(w.store)
    && GenerationsAreOwned(w)
  }

  // --- One write keeps each part ---

  lemma KeepsRequestsKeyed(w: World, op: Op)
    requires RequestsKeyed(w.store) && Safe(w, op)
    ensures RequestsKeyed(Apply(w.store, op))
  {}

  lemma KeepsLeasesKeyed(w: World, op: Op)
    requires LeasesKeyed(w.store) && Safe(w, op)
    ensures LeasesKeyed(Apply(w.store, op))
  {}

  lemma KeepsCheckpointsKeyed(w: World, op: Op)
    requires CheckpointsKeyed(w.store) && Safe(w, op)
    ensures CheckpointsKeyed(Apply(w.store, op))
  {}

  lemma KeepsCancellationsKeyed(w: World, op: Op)
    requires CancellationsKeyed(w.store) && Safe(w, op)
    ensures CancellationsKeyed(Apply(w.store, op))
  {}

  lemma KeepsWorkersKeyed(w: World, op: Op)
    requires WorkersKeyed(w.store) && Safe(w, op)
    ensures WorkersKeyed(Apply(w.store, op))
  {}

  lemma KeepsSegmentsInRange(w: World, op: Op)
    requires SegmentsInRange(w.store) && Safe(w, op)
    ensures SegmentsInRange(Apply(w.store, op))
  {}

  lemma KeepsResults(w: World, op: Op)
    requires ResultsMatchStages(w.store) && Safe(w, op)
    ensures ResultsMatchStages(Apply(w.store, op))
  {}

  /** The stage a write moves its request to, if it moves one. */
  function Moves(s: Store, op: Op): Option<(RequestId, Stage)> {
    if op.Requests? && op.request.Transition? && TransitionFires(s, op.request.id, op.request.expected)
    then Some((op.request.id, op.request.next))
    else if op.Commit? && CommitFires(s, op.id, op.expected, op.result) then Some((op.id, Completed))
    else None
  }

  predicate Creates(op: Op) { op.Requests? && op.request.CreateRequest? }

  lemma MovesAreEdges(w: World, op: Op)
    requires Safe(w, op) && Moves(w.store, op).Some?
    ensures var (id, next) := Moves(w.store, op).value;
            && id in w.store.requests
            && Edge(w.store.requests[id].stage, next)
            && Apply(w.store, op).requests == w.store.requests[id := w.store.requests[id].(stage := next)]
  {}

  lemma StaysKeepStages(w: World, op: Op)
    requires Safe(w, op) && Moves(w.store, op).None? && !Creates(op)
    ensures Apply(w.store, op).requests.Keys == w.store.requests.Keys
    ensures forall r :: r in w.store.requests ==> Apply(w.store, op).requests[r].stage == w.store.requests[r].stage
  {}

  lemma KeepsLeasesIssued(w: World, op: Op)
    requires LeasesAreIssued(w) && Safe(w, op)
    ensures LeasesAreIssued(Do(w, op))
  {}

  lemma KeepsCancellations(w: World, op: Op)
    requires CancellationsHold(w.store) && CancellationsKeyed(w.store) && Safe(w, op)
    ensures CancellationsHold(Apply(w.store, op))
  {}

  lemma KeepsGenerations(w: World, op: Op)
    requires GenerationsAreOwned(w) && WorkersKeyed(w.store) && Safe(w, op)
    ensures GenerationsAreOwned(Do(w, op))
  {}

  lemma KeepsConsistent(w: World, op: Op)
    requires Consistent(w) && Safe(w, op)
    ensures Consistent(Do(w, op))
  {
    KeepsRequestsKeyed(w, op);
    KeepsLeasesKeyed(w, op);
    KeepsCheckpointsKeyed(w, op);
    KeepsCancellationsKeyed(w, op);
    KeepsWorkersKeyed(w, op);
    KeepsSegmentsInRange(w, op);
    KeepsResults(w, op);
    KeepsLeasesIssued(w, op);
    KeepsCancellations(w, op);
    KeepsGenerations(w, op);
  }

  /** Any sequence of disciplined writes keeps the whole invariant, cut off wherever one likes. */
  lemma {:induction false} DisciplinePreserves(w: World, ops: seq<Op>)
    requires Consistent(w) && SafeAll(w, ops)
    ensures Consistent(DoAll(w, ops))
    decreases |ops|
  {
    if ops != [] {
      KeepsConsistent(w, ops[0]);
      DisciplinePreserves(Do(w, ops[0]), ops[1..]);
    }
  }

  lemma OriginIsConsistent()
    ensures Consistent(Origin)
  {}

  // --- Sequences of writes ---

  lemma {:induction false} DoAllAppend(w: World, a: seq<Op>, b: seq<Op>)
    ensures DoAll(w, a + b) == DoAll(DoAll(w, a), b)
    decreases |a|
  {
    if a == [] {
      assert a + b == b;
    } else {
      assert (a + b)[0] == a[0] && (a + b)[1..] == a[1..] + b;
      DoAllAppend(Do(w, a[0]), a[1..], b);
    }
  }

  lemma {:induction false} SafeAllAppend(w: World, a: seq<Op>, b: seq<Op>)
    ensures SafeAll(w, a + b) <==> SafeAll(w, a) && SafeAll(DoAll(w, a), b)
    decreases |a|
  {
    if a == [] {
      assert a + b == b;
    } else {
      assert (a + b)[0] == a[0] && (a + b)[1..] == a[1..] + b;
      SafeAllAppend(Do(w, a[0]), a[1..], b);
    }
  }

  lemma {:induction false} DoAllReplays(w: World, ops: seq<Op>)
    ensures DoAll(w, ops).store == Replay(w.store, ops)
    decreases |ops|
  {
    if ops != [] {
      DoAllReplays(Do(w, ops[0]), ops[1..]);
    }
  }

  /** A run cut off between two writes is still disciplined. */
  lemma PrefixIsSafe(w: World, ops: seq<Op>, n: nat)
    requires SafeAll(w, ops) && n <= |ops|
    ensures SafeAll(w, ops[..n])
  {
    assert ops == ops[..n] + ops[n..];
    SafeAllAppend(w, ops[..n], ops[n..]);
  }
}
