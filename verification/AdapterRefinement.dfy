/**
 * The durable adapter refines the in-memory repository: driven by the same
 * calls, both give the same answers and hold the same records, as long as no
 * call writes through the view of a replaced record or deletes by a prefix that
 * another identifier extends. Exactly those calls tell the two apart.
 */
module AdapterRefinement {
  import opened Options
  import opened DurableTypes
  import opened Store
  import opened DurableObjectKeys
  import opened InMemoryRepositories
  import opened InMemoryViews
  import opened DurableObjectRepositories
  import opened Tallies

  /**
   * A method call of either repository. A field write goes through a view: in
   * memory the view holds a record object, in the adapter a copy of the record.
   */
  datatype Call =
    | Issue(op: Op)
    | WriteView(target: nat, copy: Request, write: RequestWrite)
    | WriteWorkerView(target: nat, field: WorkerWrite)
    | ReadRequest(id: RequestId)
    | ReadMapping(key: IdempotencyKey)
    | ReadAttempts(id: RequestId)
    | ReadLease(id: RequestId)
    | ReadCheckpoint(id: RequestId, segment: nat)
    | ReadCheckpoints(id: RequestId)
    | ReadResult(id: RequestId)
    | ReadCancellation(id: RequestId)
    | ReadOwnership(id: RequestId)
    | ReadCursor(id: RequestId)
    | ReadWorker(worker: WorkerId)
    | ReadAllRequests
    | ReadAllLeases
    | ReadAllCheckpoints
    | ReadAllWorkers

  /** A listing answers with every record as often as it is listed; its order is the storage's own. */
  datatype Answer =
    | Done
    | Verdict(ok: bool)
    | StoreAnswer(stored: CheckpointStored)
    | CommitAnswer(completion: Completion)
    | ClaimAnswer(claim: ClaimResult)
    | RequestAnswer(request: Option<Request>)
    | MappingAnswer(mapping: Option<RequestId>)
    | AttemptsAnswer(attempts: seq<Attempt>)
    | LeaseAnswer(lease: Option<Lease>)
    | CheckpointAnswer(checkpoint: Option<Checkpoint>)
    | ResultAnswer(result: Option<Result>)
    | CancellationAnswer(cancellation: Option<Cancellation>)
    | OwnershipAnswer(ownership: Option<Ownership>)
    | CursorAnswer(cursor: Option<Cursor>)
    | WorkerAnswer(worker: Option<Worker>)
    | RequestsAnswer(requests: multiset<Request>)
    | LeasesAnswer(leases: multiset<Lease>)
    | CheckpointsAnswer(checkpoints: multiset<Checkpoint>)
    | WorkersAnswer(workers: multiset<Worker>)

  /** Views that were handed out, fresh lease identifiers, and records routed to the request they name. */
  predicate Proper(s: Scene, call: Call) {
    match call
    case Issue(op) =>
      && !(op.Requests? && !op.request.CreateRequest? && !op.request.Transition?)
      && !(op.Workers? && !op.worker.PutWorker? && !op.worker.DeleteWorker?)
      && (op.Leases? && op.lease.PutLease? ==> NotElsewhere(s.store.leases, op.lease.lease))
      && (op.Commit? ==> op.result.requestId == op.id)
      && (op.PutCancellation? ==> op.cancellation.requestId == op.id)
    case WriteView(target, copy, write) => RequestViewed(s, target, copy) && FieldWrite(copy, write)
    case WriteWorkerView(target, field) => WorkerViewed(s, target, field)
    case _ => true
  }

  /** What a call does in memory: a view of a replaced record writes to an object nobody stores. */
  function MemoryEffect(s: Scene, call: Call): Scene {
    match call
    case Issue(Requests(CreateRequest(record))) => Created(s, record)
    case Issue(Workers(PutWorker(w))) => Registered(s, w)
    case Issue(Workers(DeleteWorker(w))) => Removed(s, w)
    case Issue(op) => s.(store := Apply(s.store, op))
    case WriteView(target, _, write) =>
      if RequestIsCurrent(s, target) then s.(store := Apply(s.store, Requests(write))) else s
    case WriteWorkerView(target, field) =>
      if WorkerIsCurrent(s, target) then s.(store := Apply(s.store, Workers(field))) else s
    case _ => s
  }

  /** What a call does in the adapter: a view writes its one property into the latest record under its key. */
  function DurableEffect(s: Store, call: Call): Store {
    match call
    case Issue(Checkpoints(DeleteCheckpoints(id))) => s.(checkpoints := OwnDeleted(s.checkpoints, id))
    case Issue(op) => Apply(s, op)
    case WriteView(_, copy, write) =>
      var latest := if copy.id in s.requests then s.requests[copy.id] else copy;
      s.(requests := s.requests[copy.id := WithField(latest, write)])
    case WriteWorkerView(_, field) => Apply(s, Workers(field))
    case _ => s
  }

  /** The worker is stored under the generation of the write, and without the value. */
  predicate AltersWorker(m: map<WorkerId, Worker>, field: WorkerWrite) {
    match field
    case SetWorkerStage(w, g, stage) => GenerationStored(m, w, g) && m[w].stage != stage
    case SetWorkerSegment(w, g, current) => GenerationStored(m, w, g) && m[w].currentSegment != current
    case SetHeartbeat(w, g, at) => GenerationStored(m, w, g) && m[w].lastHeartbeat != at
    case _ => false
  }

  /** The request is stored, and without the value. */
  predicate AltersRequest(m: map<RequestId, Request>, write: RequestWrite) {
    match write
    case SetCurrentSegment(id, segment) => id in m && m[id].currentSegment != segment
    case SetRetryCount(id, count) => id in m && m[id].retryCount != count
    case SetError(id, code) => id in m && m[id].lastError != Some(code)
    case _ => false
  }

  /**
   * A view is of the stored object, or what it writes is there already, or its
   * worker is stored under another generation. No stored identifier extends the
   * prefix of the request whose checkpoints go.
   */
  predicate Harmless(s: Scene, call: Call) {
    match call
    case Issue(Checkpoints(DeleteCheckpoints(id))) => NoOtherExtends(s.store.checkpoints, id)
    case WriteView(target, _, write) =>
      RequestIsCurrent(s, target) || !AltersRequest(s.store.requests, write)
    case WriteWorkerView(target, field) =>
      WorkerIsCurrent(s, target) || !AltersWorker(s.store.workers, field)
    case _ => true
  }

  lemma MemorySettles(s: Scene, call: Call)
    requires Settled(s) && Proper(s, call)
    ensures Settled(MemoryEffect(s, call))
  {
    if call.Issue? && InPlace(call.op) {
      InPlaceSettles(s, call.op);
    } else if call.WriteView? {
      InPlaceSettles(s, Requests(call.write));
    } else if call.WriteWorkerView? {
      InPlaceSettles(s, Workers(call.field));
    }
  }

  /** A field write changes the map exactly when it alters the worker, and then at that worker. */
  lemma FieldShows(m: map<WorkerId, Worker>, w: WorkerId, g: Generation, field: WorkerWrite)
    requires WorkerFieldWrite(w, g, field)
    ensures ApplyWorker(m, field) != m <==> AltersWorker(m, field)
    ensures AltersWorker(m, field) ==> w in m && w in ApplyWorker(m, field) && ApplyWorker(m, field)[w] != m[w]
  {
    if GenerationStored(m, w, g) && ApplyWorker(m, field)[w] == m[w] {
      assert ApplyWorker(m, field) == m;
    }
  }

  /** From the same records, a call leaves the same records in both exactly when it is harmless. */
  lemma EffectsAgree(s: Scene, call: Call)
    requires Settled(s) && Proper(s, call)
    ensures MemoryEffect(s, call).store == DurableEffect(s.store, call) <==> Harmless(s, call)
  {
    if call.WriteView? {
      RequestViewsAgree(s, call.target, call.copy, call.write);
    } else if call.WriteWorkerView? {
      FieldShows(s.store.workers, s.born[call.target].worker, s.born[call.target].generation, call.field);
    } else if call.Issue? && call.op.Checkpoints? && call.op.checkpoint.DeleteCheckpoints? {
      hide OwnDeleted, SharesPrefix, NoOtherExtends;
      OwnDeletedIsDelete(s.store.checkpoints, call.op.checkpoint.id);
    }
  }

  lemma RequestViewsAgree(s: Scene, target: nat, copy: Request, write: RequestWrite)
    requires Settled(s) && RequestViewed(s, target, copy) && FieldWrite(copy, write)
    ensures var call := WriteView(target, copy, write);
            MemoryEffect(s, call).store == DurableEffect(s.store, call) <==> Harmless(s, call)
  {
    var m, record := s.store.requests, WithField(s.store.requests[copy.id], write);
    assert ApplyRequest(m, write) == m[copy.id := record];
    assert m[copy.id := record] == m <==> record == m[copy.id];
  }

  function BookAnswer(b: Books, op: BookWrite): Answer {
    match op
    case BindKey(key, id) => Verdict(key in b.keys ==> b.keys[key] == id)
    case Claim(o, now) =>
      ClaimAnswer(if !ClaimFires(b.ownerships, o, now) then RefusedByPeer
                  else if o.requestId in b.ownerships && b.ownerships[o.requestId].ownerId == o.ownerId then Renewed
                      else Claimed)
    case Release(id, owner) => Verdict(ReleaseFires(b.ownerships, id, owner))
    case _ => Done
  }

  function Lookup<K, V>(m: map<K, V>, k: K): Option<V> {
    if k in m then Some(m[k]) else None
  }

  /** The answer to a call, from the records before it. */
  ghost function Reply(s: Store, call: Call): Answer {
    match call
    case Issue(Requests(o)) => if o.Transition? then Verdict(InStage(s.requests, o.id, o.expected)) else Done
    case Issue(Checkpoints(PutCheckpoint(c))) =>
      var key := (c.requestId, c.segment);
      StoreAnswer(if key !in s.checkpoints then Stored
                  else if s.checkpoints[key].payloadDigest == c.payloadDigest then Unchanged else Conflict)
    case Issue(Checkpoints(CollectExpired(now))) => CheckpointsAnswer(Values(PastTtl(s.checkpoints, now)))
    case Issue(Bookkeeping(o)) => BookAnswer(s.books, o)
    case Issue(Commit(id, expected, _)) =>
      CommitAnswer(if id in s.results then DuplicateResult
                   else if InStage(s.requests, id, expected) then Committed else StageConflict)
    case Issue(_) => Done
    case WriteView(_, _, _) => Done
    case WriteWorkerView(_, _) => Done
    case _ => ReadReply(s, call)
  }

  ghost function ReadReply(s: Store, call: Call): Answer {
    match call
    case ReadRequest(id) => RequestAnswer(Lookup(s.requests, id))
    case ReadMapping(key) => MappingAnswer(Lookup(s.books.keys, key))
    case ReadAttempts(id) => AttemptsAnswer(if id in s.books.attempts then s.books.attempts[id] else [])
    case ReadLease(id) => LeaseAnswer(Lookup(s.leases, id))
    case ReadCheckpoint(id, segment) => CheckpointAnswer(Lookup(s.checkpoints, (id, segment)))
    case ReadCheckpoints(id) => CheckpointsAnswer(Values(OwnedBy(s.checkpoints, id)))
    case ReadResult(id) => ResultAnswer(Lookup(s.results, id))
    case ReadCancellation(id) => CancellationAnswer(Lookup(s.cancellations, id))
    case ReadOwnership(id) => OwnershipAnswer(Lookup(s.books.ownerships, id))
    case ReadCursor(id) => CursorAnswer(Lookup(s.books.cursors, id))
    case ReadWorker(w) => WorkerAnswer(Lookup(s.workers, w))
    case ReadAllRequests => RequestsAnswer(Values(s.requests))
    case ReadAllLeases => LeasesAnswer(Values(s.leases))
    case ReadAllCheckpoints => CheckpointsAnswer(Values(s.checkpoints))
    case ReadAllWorkers => WorkersAnswer(Values(s.workers))
    case _ => Done
  }

  /** After a call that is not harmless, one read tells the two apart. */
  lemma DifferenceShows(s: Scene, call: Call) returns (read: Call)
    requires Settled(s) && Proper(s, call) && !Harmless(s, call)
    ensures read.ReadRequest? || read.ReadWorker? || read.ReadCheckpoint?
    ensures Reply(MemoryEffect(s, call).store, read) != Reply(DurableEffect(s.store, call), read)
  {
    hide Settled, OwnDeleted, SharesPrefix;
    if call.Issue? {
      var id := call.op.checkpoint.id;
      var k :| k in s.store.checkpoints && id + ":" <= k.0;
      PrefixDeletionShows(s.store.checkpoints, id, k);
      read := ReadCheckpoint(k.0, k.1);
    } else if call.WriteView? {
      read := ReadRequest(call.copy.id);
    } else {
      read := ReadWorker(s.born[call.target].worker);
      FieldShows(s.store.workers, read.worker, s.born[call.target].generation, call.field);
    }
  }

  lemma PrefixDeletionShows(m: map<(RequestId, nat), Checkpoint>, id: RequestId, k: (RequestId, nat))
    requires k in m && id + ":" <= k.0
    ensures k in OwnDeleted(m, id) && k !in ApplyCheckpoint(m, DeleteCheckpoints(id))
  {
    assert k.0 != id;
  }

  /** A request created twice: through a view from before, memory changes nothing and the adapter the new record. */
  lemma ReplacedRecordsDiffer(r: Request)
    ensures var s := Created(Created(Opening, r), r);
            var call := WriteView(0, r, SetRetryCount(r.id, r.retryCount + 1));
            && Proper(s, call)
            && MemoryEffect(s, call).store.requests[r.id] == r
            && DurableEffect(s.store, call).requests[r.id] == r.(retryCount := r.retryCount + 1)
  {}

  /** So with a worker put twice under one generation; under another generation, neither changes anything. */
  lemma RefreshedWorkersDiffer(w: Worker, other: Generation)
    requires other != w.generation
    ensures var s, call := Registered(Registered(Opening, w), w),
            WriteWorkerView(0, SetHeartbeat(w.id, w.generation, w.lastHeartbeat + 1));
            && Proper(s, call)
            && MemoryEffect(s, call).store.workers[w.id] == w
            && DurableEffect(s.store, call).workers[w.id] == w.(lastHeartbeat := w.lastHeartbeat + 1)
    ensures var s := Registered(Registered(Opening, w), w.(generation := other));
            var call := WriteWorkerView(0, SetHeartbeat(w.id, w.generation, w.lastHeartbeat + 1));
            Proper(s, call) && Harmless(s, call)
  {}

  // --- Both classes do and answer as described ---

  method MemoryBook(repo: InMemoryRepository, op: BookWrite) returns (answer: Answer)
    requires repo.Valid()
    modifies repo
    ensures repo.Valid() && answer == BookAnswer(old(repo.Model()).books, op)
    ensures repo.Model() == Apply(old(repo.Model()), Bookkeeping(op))
  {
    hide InMemoryRepository.Valid;
    match op
    case BindKey(key, id) =>
      var ok := repo.PutIdempotencyMapping(key, id);
      answer := Verdict(ok);
    case AppendAttempt(attempt) => repo.AppendAttempt(attempt); answer := Done;
    case UpdateAttempt(id, attemptId, outcome, error) =>
      repo.UpdateAttempt(id, attemptId, outcome, error);
      answer := Done;
    case Claim(o, now) =>
      var claim := repo.ClaimRecoveryOwnership(o, now);
      answer := ClaimAnswer(claim);
    case Release(id, owner) =>
      var ok := repo.ReleaseRecoveryOwnership(id, owner);
      answer := Verdict(ok);
    case PutCursor(cursor) => repo.PutStreamCursor(cursor); answer := Done;
  }

  method DurableBook(repo: DurableObjectRepository, op: BookWrite) returns (answer: Answer)
    requires repo.Valid()
    modifies repo, repo.storage
    ensures repo.Valid() && answer == BookAnswer(old(repo.store).books, op)
    ensures repo.store == Apply(old(repo.store), Bookkeeping(op))
  {
    hide DurableObjectRepository.Valid;
    match op
    case BindKey(key, id) =>
      var ok := repo.PutIdempotencyMapping(key, id);
      answer := Verdict(ok);
    case AppendAttempt(attempt) => repo.AppendAttempt(attempt); answer := Done;
    case UpdateAttempt(id, attemptId, outcome, error) =>
      repo.UpdateAttempt(id, attemptId, outcome, error);
      answer := Done;
    case Claim(o, now) =>
      var claim := repo.ClaimRecoveryOwnership(o, now);
      answer := ClaimAnswer(claim);
    case Release(id, owner) =>
      var ok := repo.ReleaseRecoveryOwnership(id, owner);
      answer := Verdict(ok);
    case PutCursor(cursor) => repo.PutStreamCursor(cursor); answer := Done;
  }

  method MemoryIssue(live: LiveRepository, op: Op) returns (answer: Answer)
    requires live.Valid() && Proper(live.Now(), Issue(op)) && InPlace(op)
    modifies live.repo
    ensures live.Valid() && live.Now() == old(live.Now()).(store := Apply(old(live.repo.Model()), op))
    ensures answer == Reply(old(live.repo.Model()), Issue(op))
  {
    hide InMemoryRepository.Valid, Values, PastTtl;
    InPlaceSettles(live.Now(), op);
    answer := Done;
    match op
    case Requests(Transition(id, expected, next)) =>
      var ok := live.repo.TransitionStage(id, expected, next);
      answer := Verdict(ok);
    case Requests(_) => assert false;
    case Leases(PutLease(lease)) => live.repo.PutLease(lease);
    case Leases(DeleteLease(lease)) => live.repo.DeleteLease(lease);
    case Checkpoints(PutCheckpoint(c)) =>
      var stored := live.repo.PutCheckpoint(c);
      answer := StoreAnswer(stored);
    case Checkpoints(DeleteCheckpoint(id, segment)) => live.repo.DeleteCheckpoint(id, segment);
    case Checkpoints(DeleteCheckpoints(id)) => live.repo.DeleteCheckpointsForRequest(id);
    case Checkpoints(CollectExpired(now)) =>
      var expired := live.repo.CollectExpiredCheckpoints(now);
      answer := CheckpointsAnswer(multiset(expired));
    case Workers(_) => assert false;
    case Bookkeeping(book) => answer := MemoryBook(live.repo, book);
    case Commit(id, expected, result) =>
      var completion := live.repo.CommitCompletion(id, expected, result);
      answer := CommitAnswer(completion);
    case PutCancellation(id, record) => live.repo.PutCancellation(id, record);
  }

  method DurableIssue(repo: DurableObjectRepository, op: Op, ghost s: Scene) returns (answer: Answer)
    requires repo.Valid() && s.store == repo.store && Proper(s, Issue(op))
    modifies repo, repo.storage
    ensures repo.Valid() && repo.store == DurableEffect(old(repo.store), Issue(op))
    ensures answer == Reply(old(repo.store), Issue(op))
  {
    hide DurableObjectRepository.Valid, Values, PastTtl;
    answer := Done;
    match op
    case Requests(CreateRequest(record)) => repo.CreateRequest(record);
    case Requests(Transition(id, expected, next)) =>
      var ok := repo.TransitionStage(id, expected, next);
      answer := Verdict(ok);
    case Requests(_) => assert false;
    case Leases(PutLease(lease)) => repo.PutLease(lease);
    case Leases(DeleteLease(lease)) => repo.DeleteLease(lease);
    case Checkpoints(PutCheckpoint(c)) =>
      var stored := repo.PutCheckpoint(c);
      answer := StoreAnswer(stored);
    case Checkpoints(DeleteCheckpoint(id, segment)) => repo.DeleteCheckpoint(id, segment);
    case Checkpoints(DeleteCheckpoints(id)) => repo.DeleteCheckpointsForRequest(id);
    case Checkpoints(CollectExpired(now)) =>
      var expired := repo.CollectExpiredCheckpoints(now);
      answer := CheckpointsAnswer(multiset(expired));
    case Workers(PutWorker(w)) => repo.PutWorker(w);
    case Workers(DeleteWorker(id)) => repo.DeleteWorker(id);
    case Workers(_) => assert false;
    case Bookkeeping(book) => answer := DurableBook(repo, book);
    case Commit(id, expected, result) =>
      var completion := repo.CommitCompletion(id, expected, result);
      answer := CommitAnswer(completion);
    case PutCancellation(id, record) => repo.PutCancellation(id, record);
  }

  predicate Lists(call: Call) {
    call.ReadCheckpoints? || call.ReadAllRequests? || call.ReadAllLeases? || call.ReadAllCheckpoints?
        || call.ReadAllWorkers?
  }

  predicate Reads(call: Call) {
    !call.Issue? && !call.WriteView? && !call.WriteWorkerView?
  }

  method MemoryList(repo: InMemoryRepository, call: Call) returns (answer: Answer)
    requires repo.Valid() && Lists(call)
    ensures answer == Reply(repo.Model(), call)
  {
    hide InMemoryRepository.Valid, Values, OwnedBy;
    match call
    case ReadCheckpoints(id) => var r := repo.ListCheckpoints(id); answer := CheckpointsAnswer(multiset(r));
    case ReadAllRequests => var r := repo.ListRequests(); answer := RequestsAnswer(multiset(r));
    case ReadAllLeases => var r := repo.ListActiveLeases(); answer := LeasesAnswer(multiset(r));
    case ReadAllCheckpoints => var r := repo.AllCheckpoints(); answer := CheckpointsAnswer(multiset(r));
    case ReadAllWorkers => var r := repo.ListWorkers(); answer := WorkersAnswer(multiset(r));
    case _ => assert false;
  }

  method MemoryRead(repo: InMemoryRepository, call: Call) returns (answer: Answer)
    requires repo.Valid() && Reads(call)
    ensures answer == Reply(repo.Model(), call)
  {
    hide InMemoryRepository.Valid;
    if Lists(call) {
      answer := MemoryList(repo, call);
      return;
    }
    match call
    case ReadRequest(id) => var r := repo.GetRequest(id); answer := RequestAnswer(r);
    case ReadMapping(key) => var r := repo.GetIdempotencyMapping(key); answer := MappingAnswer(r);
    case ReadAttempts(id) => var r := repo.ListAttempts(id); answer := AttemptsAnswer(r);
    case ReadLease(id) => var r := repo.GetActiveLease(id); answer := LeaseAnswer(r);
    case ReadCheckpoint(id, segment) => var r := repo.GetCheckpoint(id, segment); answer := CheckpointAnswer(r);
    case ReadResult(id) => var r := repo.GetResult(id); answer := ResultAnswer(r);
    case ReadCancellation(id) => var r := repo.GetCancellation(id); answer := CancellationAnswer(r);
    case ReadOwnership(id) => var r := repo.GetRecoveryOwnership(id); answer := OwnershipAnswer(r);
    case ReadCursor(id) => var r := repo.GetStreamCursor(id); answer := CursorAnswer(r);
    case ReadWorker(w) => var r := repo.GetWorker(w); answer := WorkerAnswer(r);
    case _ => assert false;
  }

  method DurableList(repo: DurableObjectRepository, call: Call) returns (answer: Answer)
    requires repo.Valid() && Lists(call)
    ensures answer == Reply(repo.store, call)
  {
    hide DurableObjectRepository.Valid, Values, OwnedBy;
    match call
    case ReadCheckpoints(id) => var r := repo.ListCheckpoints(id); answer := CheckpointsAnswer(multiset(r));
    case ReadAllRequests => var r := repo.ListRequests(); answer := RequestsAnswer(multiset(r));
    case ReadAllLeases => var r := repo.ListActiveLeases(); answer := LeasesAnswer(multiset(r));
    case ReadAllCheckpoints => var r := repo.AllCheckpoints(); answer := CheckpointsAnswer(multiset(r));
    case ReadAllWorkers => var r := repo.ListWorkers(); answer := WorkersAnswer(multiset(r));
    case _ => assert false;
  }

  method DurableRead(repo: DurableObjectRepository, call: Call) returns (answer: Answer)
    requires repo.Valid() && Reads(call)
    ensures answer == Reply(repo.store, call)
  {
    hide DurableObjectRepository.Valid;
    if Lists(call) {
      answer := DurableList(repo, call);
      return;
    }
    match call
    case ReadRequest(id) => var r := repo.GetRequest(id); answer := RequestAnswer(r);
    case ReadMapping(key) => var r := repo.GetIdempotencyMapping(key); answer := MappingAnswer(r);
    case ReadAttempts(id) => var r := repo.ListAttempts(id); answer := AttemptsAnswer(r);
    case ReadLease(id) => var r := repo.GetActiveLease(id); answer := LeaseAnswer(r);
    case ReadCheckpoint(id, segment) => var r := repo.GetCheckpoint(id, segment); answer := CheckpointAnswer(r);
    case ReadResult(id) => var r := repo.GetResult(id); answer := ResultAnswer(r);
    case ReadCancellation(id) => var r := repo.GetCancellation(id); answer := CancellationAnswer(r);
    case ReadOwnership(id) => var r := repo.GetRecoveryOwnership(id); answer := OwnershipAnswer(r);
    case ReadCursor(id) => var r := repo.GetStreamCursor(id); answer := CursorAnswer(r);
    case ReadWorker(w) => var r := repo.GetWorker(w); answer := WorkerAnswer(r);
    case _ => assert false;
  }

  method MemoryCall(live: LiveRepository, call: Call) returns (answer: Answer)
    requires live.Valid() && Proper(live.Now(), call)
    modifies live, live.repo
    ensures live.Valid() && live.Now() == MemoryEffect(old(live.Now()), call)
    ensures answer == Reply(old(live.repo.Model()), call)
  {
    hide LiveRepository.Valid, Created, Registered, Removed, BookAnswer, ReadReply, Apply;
    answer := Done;
    match call
    case Issue(op) =>
      if op.Requests? && op.request.CreateRequest? {
        live.CreateRequest(op.request.record);
      } else if op.Workers? && op.worker.PutWorker? {
        live.PutWorker(op.worker.worker);
      } else if op.Workers? && op.worker.DeleteWorker? {
        live.DeleteWorker(op.worker.workerId);
      } else {
        answer := MemoryIssue(live, op);
      }
    case WriteView(target, copy, write) => live.WriteRequestField(target, write, copy);
    case WriteWorkerView(target, field) => live.WriteWorkerField(target, field);
    case _ =>
      live.RepoIsValid();
      answer := MemoryRead(live.repo, call);
  }

  method DurableCall(repo: DurableObjectRepository, call: Call, ghost s: Scene) returns (answer: Answer)
    requires repo.Valid() && s.store == repo.store && Proper(s, call)
    modifies repo, repo.storage
    ensures repo.Valid() && repo.store == DurableEffect(old(repo.store), call)
    ensures answer == Reply(old(repo.store), call)
  {
    hide DurableObjectRepository.Valid, BookAnswer, ReadReply;
    answer := Done;
    match call
    case Issue(op) => answer := DurableIssue(repo, op, s);
    case WriteView(_, copy, write) => repo.SetRequestField(copy, write);
    case WriteWorkerView(_, SetWorkerStage(id, generation, _)) => repo.SetWorkerField(id, generation, call.field);
    case WriteWorkerView(_, SetWorkerSegment(id, generation, _)) => repo.SetWorkerField(id, generation, call.field);
    case WriteWorkerView(_, SetHeartbeat(id, generation, _)) => repo.SetWorkerField(id, generation, call.field);
    case WriteWorkerView(_, _) => assert false;
    case _ => answer := DurableRead(repo, call);
  }

  // --- Any sequence of calls ---

  function After(calls: seq<Call>): Scene {
    if calls == [] then Opening else MemoryEffect(After(calls[..|calls| - 1]), calls[|calls| - 1])
  }

  function DurableAfter(calls: seq<Call>): Store {
    if calls == [] then Empty else DurableEffect(DurableAfter(calls[..|calls| - 1]), calls[|calls| - 1])
  }

  /** Every call is one that could be made in the state the calls before it leave. */
  ghost predicate AllProper(calls: seq<Call>) {
    forall i :: 0 <= i < |calls| ==> Proper(After(calls[..i]), calls[i])
  }

  ghost predicate AllHarmless(calls: seq<Call>) {
    forall i :: 0 <= i < |calls| ==> Harmless(After(calls[..i]), calls[i])
  }

  /** The records agree all the way through. */
  ghost predicate NeverApart(calls: seq<Call>) {
    forall i :: 0 <= i <= |calls| ==> After(calls[..i]).store == DurableAfter(calls[..i])
  }

  lemma {:induction false} AfterSettles(calls: seq<Call>)
    requires AllProper(calls)
    ensures Settled(After(calls))
  {
    hide Proper, MemoryEffect;
    if calls != [] {
      var n := |calls| - 1;
      Shorter(calls);
      AfterSettles(calls[..n]);
      assert Proper(After(calls[..n]), calls[n]);
      MemorySettles(After(calls[..n]), calls[n]);
    }
  }

  lemma Shorter(calls: seq<Call>)
    requires calls != []
    ensures var front := calls[..|calls| - 1];
            && (AllProper(calls) <==> AllProper(front) && Proper(After(front), calls[|calls| - 1]))
            && (AllHarmless(calls) <==> AllHarmless(front) && Harmless(After(front), calls[|calls| - 1]))
            && (NeverApart(calls) <==> NeverApart(front) && After(calls).store == DurableAfter(calls))
  {
    hide Proper, Harmless, MemoryEffect, DurableEffect, After, DurableAfter;
    var n := |calls| - 1;
    assert forall i :: 0 <= i <= n ==> calls[..n][..i] == calls[..i];
    assert calls[..n + 1] == calls;
  }

  /** No record ever differs if and only if every call is harmless where it is made. */
  lemma {:induction false} NeverApartIffHarmless(calls: seq<Call>)
    requires AllProper(calls)
    ensures NeverApart(calls) <==> AllHarmless(calls)
  {
    hide Proper, Harmless, MemoryEffect, DurableEffect, AllProper, AllHarmless, NeverApart;
    if calls == [] {
      NothingYet();
    } else {
      var n := |calls| - 1;
      Shorter(calls);
      NeverApartIffHarmless(calls[..n]);
      AfterSettles(calls[..n]);
      EffectsAgree(After(calls[..n]), calls[n]);
      if NeverApart(calls[..n]) {
        UpToNow(calls[..n]);
      }
    }
  }

  lemma NothingYet()
    ensures NeverApart([]) && AllHarmless([])
  {}

  lemma UpToNow(calls: seq<Call>)
    requires NeverApart(calls)
    ensures After(calls).store == DurableAfter(calls)
  {
    assert calls[..|calls|] == calls;
  }

  /** Each answer is the one the calls before it lead to. */
  ghost predicate RepliesTo(answers: seq<Answer>, calls: seq<Call>) {
    |answers| <= |calls| && forall k :: 0 <= k < |answers| ==> answers[k] == Reply(After(calls[..k]).store, calls[k])
  }

  lemma RepliesStart(calls: seq<Call>)
    ensures RepliesTo([], calls)
  {}

  lemma RepliesExtend(answers: seq<Answer>, calls: seq<Call>, next: Answer)
    requires RepliesTo(answers, calls) && |answers| < |calls|
    requires next == Reply(After(calls[..|answers|]).store, calls[|answers|])
    ensures RepliesTo(answers + [next], calls)
  {
    hide Reply, After;
  }

  /**
   * Started empty and driven by the same harmless calls, the two repositories
   * give the same answer to every call, and end with the same records.
   */
  method Lockstep(enc: string -> string, calls: seq<Call>)
    returns (memory: seq<Answer>, durable: seq<Answer>, ghost one: Store, ghost other: Store)
    requires EncoderOk(enc) && AllProper(calls) && AllHarmless(calls)
    ensures memory == durable && |memory| == |calls|
    ensures RepliesTo(memory, calls)
    ensures one == other == After(calls).store
  {
    hide EncoderOk, InMemoryRepository.Valid, DurableObjectRepository.Valid, LiveRepository.Valid, Proper, Harmless,
         MemoryEffect,
         DurableEffect, Reply, RepliesTo, Settled;
    RepliesStart(calls);
    var repo := new InMemoryRepository();
    var a := new LiveRepository(repo);
    var storage := new KvStorage();
    var b := new DurableObjectRepository(enc, storage);
    memory, durable := [], [];
    for i := 0 to |calls|
      invariant a.Valid() && b.Valid() && fresh(a) && fresh(a.repo) && fresh(b) && fresh(b.storage)
      invariant a.Now() == After(calls[..i]) && b.store == a.Now().store
      invariant memory == durable && |memory| == i
      invariant RepliesTo(memory, calls)
    {
      assert Proper(a.Now(), calls[i]) && Harmless(a.Now(), calls[i]);
      assert calls[..i + 1][..i] == calls[..i] && calls[..i + 1][i] == calls[i];
      a.IsSettled();
      EffectsAgree(a.Now(), calls[i]);
      var y := DurableCall(b, calls[i], a.Now());
      var x := MemoryCall(a, calls[i]);
      RepliesExtend(memory, calls, x);
      memory, durable := memory + [x], durable + [y];
    }
    assert calls[..|calls|] == calls;
    one, other := a.Now().store, b.store;
  }
}
