/**
 * The in-memory repository: one map for each storage boundary. Its abstract
 * value is a `Store`; every method is one write of the reference behaviour.
 * `log` records every write that the repository did not refuse, in order.
 */
module InMemoryRepositories {
  import opened Options
  import opened RequestStages
  import opened DurableTypes
  import opened Store
  import opened Steps
  import opened StorageKeys
  import opened Slots
  import opened Tallies

  datatype CheckpointStored = Stored | Unchanged | Conflict

  datatype Completion = Committed | DuplicateResult | StageConflict

  datatype ClaimResult = Claimed | Renewed | RefusedByPeer

  /** The first lease found with this identifier is gone, if there is one. */
  ghost predicate DeletesOne(m: map<RequestId, Lease>, n: map<RequestId, Lease>, lease: LeaseId) {
    || (exists q :: q in m && m[q].leaseId == lease && n == m - {q})
    || (n == m && forall r :: r in m ==> m[r].leaseId != lease)
  }

  lemma DeletesOneIsDelete(m: map<RequestId, Lease>, n: map<RequestId, Lease>, lease: LeaseId)
    requires DeletesOne(m, n, lease) && UniqueLeaseIds(m)
    ensures n == ApplyLease(m, LeaseWrite.DeleteLease(lease)) && UniqueLeaseIds(n)
  {}

  class InMemoryRepository {
    var requestRecords: map<RequestId, Request>
    var idempotencyMappings: map<IdempotencyKey, RequestId>
    var attempts: map<RequestId, seq<Attempt>>
    var activeLeases: map<RequestId, Lease>
    var checkpoints: map<string, Checkpoint>
    var results: map<RequestId, Result>
    var cancellations: map<RequestId, Cancellation>
    var recoveryOwnerships: map<RequestId, Ownership>
    var streamCursors: map<RequestId, Cursor>
    var workers: map<WorkerId, Worker>

    ghost var slots: map<(RequestId, nat), Checkpoint>
    ghost var log: seq<Op>

    /** The slots carry their names, lease identifiers are unique, and the log accounts for every record. */
    ghost predicate Valid() reads this {
      Named(checkpoints, slots) && UniqueLeaseIds(activeLeases) && Model() == Replay(Empty, log)
    }

    ghost function Model(): Store reads this {
      Store(requestRecords, activeLeases, slots, results, cancellations, workers,
            Books(idempotencyMappings, attempts, recoveryOwnerships, streamCursors))
    }

    /** This one write happened, and nothing else. */
    twostate predicate Did(op: Op) reads this {
      Valid() && Model() == Apply(old(Model()), op) && log == old(log) + [op]
    }

    /** A refused write leaves no trace. */
    twostate predicate DidNothing() reads this {
      Valid() && Model() == old(Model()) && log == old(log)
    }

    constructor ()
      ensures Valid() && Model() == Empty && log == []
    {
      requestRecords, idempotencyMappings, attempts, activeLeases := map[], map[], map[], map[];
      checkpoints, results, cancellations := map[], map[], map[];
      recoveryOwnerships, streamCursors, workers := map[], map[], map[];
      slots, log := map[], [];
    }

    ghost method Record(op: Op)
      modifies this`log
      ensures log == old(log) + [op]
      ensures Replay(Empty, log) == Apply(Replay(Empty, old(log)), op)
    {
      ReplaySnoc(Empty, log, op);
      log := log + [op];
    }

    // --- request state ---

    method CreateRequest(record: Request)
      requires Valid()
      modifies this`requestRecords, this`log
      ensures Did(Requests(RequestWrite.CreateRequest(record)))
      ensures requestRecords == old(requestRecords)[record.id := record]
    {
      requestRecords := requestRecords[record.id := record];
      Record(Requests(RequestWrite.CreateRequest(record)));
    }

    method GetRequest(id: RequestId) returns (record: Option<Request>)
      ensures record == if id in Model().requests then Some(Model().requests[id]) else None
    {
      return if id in requestRecords then Some(requestRecords[id]) else None;
    }

    /** Every request once. */
    method ListRequests() returns (list: seq<Request>)
      ensures multiset(list) == Values(Model().requests)
    {
      list := ListAll(requestRecords);
    }

    method TransitionStage(id: RequestId, expected: Stage, next: Stage) returns (ok: bool)
      requires Valid()
      modifies this`requestRecords, this`log
      ensures ok == InStage(old(Model()).requests, id, expected)
      ensures if ok then Did(Requests(RequestWrite.Transition(id, expected, next))) else DidNothing()
      ensures ok ==> id in old(requestRecords)
                     && requestRecords == old(requestRecords)[id := old(requestRecords)[id].(stage := next)]
    {
      if id !in requestRecords || requestRecords[id].stage != expected { return false; }
      requestRecords := requestRecords[id := requestRecords[id].(stage := next)];
      Record(Requests(RequestWrite.Transition(id, expected, next)));
      return true;
    }

    method SetCurrentSegment(id: RequestId, segment: nat)
      requires Valid() && id in requestRecords
      modifies this`requestRecords, this`log
      ensures Did(Requests(RequestWrite.SetCurrentSegment(id, segment)))
    {
      requestRecords := requestRecords[id := requestRecords[id].(currentSegment := segment)];
      Record(Requests(RequestWrite.SetCurrentSegment(id, segment)));
    }

    method SetRetryCount(id: RequestId, count: nat)
      requires Valid() && id in requestRecords
      modifies this`requestRecords, this`log
      ensures Did(Requests(RequestWrite.SetRetryCount(id, count)))
    {
      requestRecords := requestRecords[id := requestRecords[id].(retryCount := count)];
      Record(Requests(RequestWrite.SetRetryCount(id, count)));
    }

    method SetError(id: RequestId, code: ErrorCode)
      requires Valid() && id in requestRecords
      modifies this`requestRecords, this`log
      ensures Did(Requests(RequestWrite.SetError(id, code)))
    {
      requestRecords := requestRecords[id := requestRecords[id].(lastError := Some(code))];
      Record(Requests(RequestWrite.SetError(id, code)));
    }

    // --- idempotency ---

    method GetIdempotencyMapping(key: IdempotencyKey) returns (id: Option<RequestId>)
      ensures id == if key in Model().books.keys then Some(Model().books.keys[key]) else None
    {
      return if key in idempotencyMappings then Some(idempotencyMappings[key]) else None;
    }

    method PutIdempotencyMapping(key: IdempotencyKey, id: RequestId) returns (ok: bool)
      requires Valid()
      modifies this`idempotencyMappings, this`log
      ensures ok == (key in old(Model()).books.keys ==> old(Model()).books.keys[key] == id)
      ensures if ok then Did(Bookkeeping(BookWrite.BindKey(key, id))) else DidNothing()
    {
      if key in idempotencyMappings && idempotencyMappings[key] != id { return false; }
      idempotencyMappings := idempotencyMappings[key := id];
      Record(Bookkeeping(BookWrite.BindKey(key, id)));
      return true;
    }

    // --- attempt history ---

    /** The attempts of a request in the order they were appended. */
    method ListAttempts(id: RequestId) returns (list: seq<Attempt>)
      ensures list == if id in Model().books.attempts then Model().books.attempts[id] else []
    {
      return if id in attempts then attempts[id] else [];
    }

    method AppendAttempt(attempt: Attempt)
      requires Valid()
      modifies this`attempts, this`log
      ensures Did(Bookkeeping(BookWrite.AppendAttempt(attempt)))
    {
      var list := if attempt.requestId in attempts then attempts[attempt.requestId] else [];
      attempts := attempts[attempt.requestId := list + [attempt]];
      Record(Bookkeeping(BookWrite.AppendAttempt(attempt)));
    }

    /** Find the first attempt with this identifier, and patch it in place. */
    method UpdateAttempt(id: RequestId, attemptId: AttemptId, outcome: AttemptOutcome, error: Option<ErrorCode>)
      requires Valid()
      modifies this`attempts, this`log
      ensures Did(Bookkeeping(BookWrite.UpdateAttempt(id, attemptId, outcome, error)))
    {
      Record(Bookkeeping(BookWrite.UpdateAttempt(id, attemptId, outcome, error)));
      if id !in attempts { return; }
      var list := attempts[id];
      var i := 0;
      while i < |list| && list[i].attemptId != attemptId
        invariant 0 <= i <= |list|
        invariant forall k :: 0 <= k < i ==> list[k].attemptId != attemptId
      {
        i := i + 1;
      }
      PatchFirstFinds(list, i, attemptId, outcome, error);
      if i == |list| {
        assert attempts == attempts[id := list];
        return;
      }
      attempts := attempts[id := list[i := Patched(list[i], outcome, error)]];
    }

    // --- leases ---

    /** Lease identifiers are generated fresh. */
    method PutLease(lease: Lease)
      requires Valid() && NotElsewhere(activeLeases, lease)
      modifies this`activeLeases, this`log
      ensures Did(Leases(LeaseWrite.PutLease(lease)))
    {
      activeLeases := activeLeases[lease.requestId := lease];
      Record(Leases(LeaseWrite.PutLease(lease)));
    }

    /** Scan for the lease and delete the first one found. */
    method DropLease(lease: LeaseId)
      modifies this`activeLeases
      ensures DeletesOne(old(activeLeases), activeLeases, lease)
    {
      var rest := activeLeases.Keys;
      while rest != {}
        invariant rest <= activeLeases.Keys
        invariant activeLeases == old(activeLeases)
        invariant forall r :: r in activeLeases && r !in rest ==> activeLeases[r].leaseId != lease
        decreases rest
      {
        var r :| r in rest;
        if activeLeases[r].leaseId == lease {
          activeLeases := activeLeases - {r};
          return;
        }
        rest := rest - {r};
      }
    }

    method DeleteLease(lease: LeaseId)
      requires Valid()
      modifies this`activeLeases, this`log
      ensures Did(Leases(LeaseWrite.DeleteLease(lease)))
    {
      DropLease(lease);
      DeletesOneIsDelete(old(activeLeases), activeLeases, lease);
      Record(Leases(LeaseWrite.DeleteLease(lease)));
    }

    method GetActiveLease(id: RequestId) returns (lease: Option<Lease>)
      ensures lease == if id in Model().leases then Some(Model().leases[id]) else None
    {
      return if id in activeLeases then Some(activeLeases[id]) else None;
    }

    /** Every lease once, in whatever order the map lists them. */
    method ListActiveLeases() returns (list: seq<Lease>)
      ensures multiset(list) == Values(Model().leases)
    {
      list := ListAll(activeLeases);
    }

    // --- checkpoints ---

    method PutCheckpoint(c: Checkpoint) returns (answer: CheckpointStored)
      requires Valid()
      modifies this`checkpoints, this`slots, this`log
      ensures var key := (c.requestId, c.segment);
              answer == if key !in old(slots) then Stored
                        else if old(slots)[key].payloadDigest == c.payloadDigest then Unchanged else Conflict
      ensures if answer == Conflict then DidNothing() else Did(Checkpoints(CheckpointWrite.PutCheckpoint(c)))
    {
      hide Named, Replay, UniqueLeaseIds, SlotName;
      var key := SlotName(c.requestId, c.segment);
      NamedLookup(checkpoints, slots, c.requestId, c.segment);
      if key in checkpoints {
        if checkpoints[key].payloadDigest != c.payloadDigest { return Conflict; }
        Record(Checkpoints(CheckpointWrite.PutCheckpoint(c)));
        return Unchanged;
      }
      NamedPut(checkpoints, slots, c);
      checkpoints := checkpoints[key := c];
      slots := slots[(c.requestId, c.segment) := c];
      Record(Checkpoints(CheckpointWrite.PutCheckpoint(c)));
      return Stored;
    }

    method GetCheckpoint(id: RequestId, segment: nat) returns (c: Option<Checkpoint>)
      requires Valid()
      ensures c == if (id, segment) in slots then Some(slots[(id, segment)]) else None
    {
      NamedLookup(checkpoints, slots, id, segment);
      var key := SlotName(id, segment);
      return if key in checkpoints then Some(checkpoints[key]) else None;
    }

    method DeleteCheckpoint(id: RequestId, segment: nat)
      requires Valid()
      modifies this`checkpoints, this`slots, this`log
      ensures Did(Checkpoints(CheckpointWrite.DeleteCheckpoint(id, segment)))
    {
      NamedDelete(checkpoints, slots, id, segment);
      checkpoints := checkpoints - {SlotName(id, segment)};
      slots := ApplyCheckpoint(slots, CheckpointWrite.DeleteCheckpoint(id, segment));
      Record(Checkpoints(CheckpointWrite.DeleteCheckpoint(id, segment)));
    }

    /** Every slot whose name starts with the prefix goes. */
    method DropPrefixed(prefix: string)
      modifies this`checkpoints
      ensures checkpoints == WithoutPrefix(old(checkpoints), prefix)
    {
      var keys := checkpoints.Keys;
      while keys != {}
        invariant keys <= old(checkpoints).Keys
        invariant checkpoints == map s | s in old(checkpoints) && (s in keys || !(prefix <= s)) :: old(checkpoints)[s]
        decreases keys
      {
        var key :| key in keys;
        if prefix <= key {
          checkpoints := checkpoints - {key};
        }
        keys := keys - {key};
      }
    }

    method DeleteCheckpointsForRequest(id: RequestId)
      requires Valid()
      modifies this`checkpoints, this`slots, this`log
      ensures Did(Checkpoints(CheckpointWrite.DeleteCheckpoints(id)))
    {
      hide Named, Replay, UniqueLeaseIds, WithoutPrefix;
      NamedDeleteAll(checkpoints, slots, id);
      DropPrefixed(id + ":");
      slots := ApplyCheckpoint(slots, CheckpointWrite.DeleteCheckpoints(id));
      Record(Checkpoints(CheckpointWrite.DeleteCheckpoints(id)));
    }

    /** The checkpoints of one request, each once, in whatever order the map lists them. */
    method ListCheckpoints(id: RequestId) returns (list: seq<Checkpoint>)
      requires Valid()
      ensures Steps.ListsCheckpoints(Model(), id, list)
    {
      var own := (c: Checkpoint) => c.requestId == id;
      list := ListWhere(checkpoints, own);
      assert Where(checkpoints, own) == OwnedBy(checkpoints, id);
      NamedOwn(checkpoints, slots, id);
    }

    /** Every checkpoint once. */
    method AllCheckpoints() returns (list: seq<Checkpoint>)
      requires Valid()
      ensures multiset(list) == Values(Model().checkpoints)
    {
      list := ListAll(checkpoints);
      NamedTally(checkpoints, slots, checkpoints, slots);
    }

    method DropExpired(now: nat) returns (expired: seq<Checkpoint>)
      modifies this`checkpoints
      ensures checkpoints == Unexpired(old(checkpoints), now)
      ensures multiset(expired) == Values(PastTtl(old(checkpoints), now))
    {
      hide Values;
      expired := [];
      NothingHeld<string, Checkpoint>();
      ghost var dropped: map<string, Checkpoint> := map[];
      var keys := checkpoints.Keys;
      while keys != {}
        invariant keys <= old(checkpoints).Keys
        invariant forall s :: s in checkpoints <==>
                    s in old(checkpoints)
                        && (s in keys || now < old(checkpoints)[s].createdAt + old(checkpoints)[s].ttlMs)
        invariant forall s :: s in checkpoints ==> checkpoints[s] == old(checkpoints)[s]
        invariant dropped == map s | s in PastTtl(old(checkpoints), now) && s !in keys :: old(checkpoints)[s]
        invariant multiset(expired) == Values(dropped)
        decreases keys
      {
        var key :| key in keys;
        if now >= checkpoints[key].createdAt + checkpoints[key].ttlMs {
          ValuesAdd(dropped, key, checkpoints[key]);
          expired := expired + [checkpoints[key]];
          dropped := dropped[key := checkpoints[key]];
          checkpoints := checkpoints - {key};
        }
        keys := keys - {key};
      }
      assert dropped == PastTtl(old(checkpoints), now);
    }

    /** The expired checkpoints are deleted, and each is handed back once. */
    method CollectExpiredCheckpoints(now: nat) returns (expired: seq<Checkpoint>)
      requires Valid()
      modifies this`checkpoints, this`slots, this`log
      ensures Did(Checkpoints(CheckpointWrite.CollectExpired(now)))
      ensures multiset(expired) == Values(PastTtl(old(Model()).checkpoints, now))
    {
      hide Named, Replay, UniqueLeaseIds, Unexpired, PastTtl, Values;
      NamedCollect(checkpoints, slots, now);
      NamedPastTtl(checkpoints, slots, now);
      expired := DropExpired(now);
      slots := ApplyCheckpoint(slots, CheckpointWrite.CollectExpired(now));
      Record(Checkpoints(CheckpointWrite.CollectExpired(now)));
    }

    // --- completion ---

    method GetResult(id: RequestId) returns (result: Option<Result>)
      ensures result == if id in Model().results then Some(Model().results[id]) else None
    {
      return if id in results then Some(results[id]) else None;
    }

    method CommitCompletion(id: RequestId, expected: Stage, result: Result) returns (answer: Completion)
      requires Valid() && result.requestId == id
      modifies this`results, this`requestRecords, this`log
      ensures answer == if id in old(Model()).results then DuplicateResult
                        else if InStage(old(Model()).requests, id, expected) then Committed else StageConflict
      ensures if answer == Committed then Did(Commit(id, expected, result)) else DidNothing()
    {
      if id in results { return DuplicateResult; }
      if id !in requestRecords || requestRecords[id].stage != expected { return StageConflict; }
      results := results[id := result];
      requestRecords := requestRecords[id := requestRecords[id].(stage := Completed)];
      Record(Commit(id, expected, result));
      return Committed;
    }

    // --- cancellation ---

    method GetCancellation(id: RequestId) returns (record: Option<Cancellation>)
      ensures record == if id in Model().cancellations then Some(Model().cancellations[id]) else None
    {
      return if id in cancellations then Some(cancellations[id]) else None;
    }

    method PutCancellation(id: RequestId, record: Cancellation)
      requires Valid() && record.requestId == id
      modifies this`cancellations, this`log
      ensures Did(Op.PutCancellation(id, record))
    {
      cancellations := cancellations[id := record];
      Record(Op.PutCancellation(id, record));
    }

    // --- recovery ownership ---

    method GetRecoveryOwnership(id: RequestId) returns (o: Option<Ownership>)
      ensures o == if id in Model().books.ownerships then Some(Model().books.ownerships[id]) else None
    {
      return if id in recoveryOwnerships then Some(recoveryOwnerships[id]) else None;
    }

    method ClaimRecoveryOwnership(o: Ownership, now: nat) returns (answer: ClaimResult)
      requires Valid()
      modifies this`recoveryOwnerships, this`log
      ensures answer == RefusedByPeer <==> !ClaimFires(old(Model()).books.ownerships, o, now)
      ensures answer == Renewed <==>
                o.requestId in old(Model()).books.ownerships
                    && old(Model()).books.ownerships[o.requestId].ownerId == o.ownerId
      ensures if answer == RefusedByPeer then DidNothing() else Did(Bookkeeping(BookWrite.Claim(o, now)))
    {
      var own := o.requestId in recoveryOwnerships && recoveryOwnerships[o.requestId].ownerId == o.ownerId;
      if o.requestId in recoveryOwnerships && !own && now < recoveryOwnerships[o.requestId].expiresAt {
        return RefusedByPeer;
      }
      recoveryOwnerships := recoveryOwnerships[o.requestId := o];
      Record(Bookkeeping(BookWrite.Claim(o, now)));
      return if own then Renewed else Claimed;
    }

    method ReleaseRecoveryOwnership(id: RequestId, owner: OwnerId) returns (ok: bool)
      requires Valid()
      modifies this`recoveryOwnerships, this`log
      ensures ok == ReleaseFires(old(Model()).books.ownerships, id, owner)
      ensures if ok then Did(Bookkeeping(BookWrite.Release(id, owner))) else DidNothing()
    {
      if id !in recoveryOwnerships || recoveryOwnerships[id].ownerId != owner { return false; }
      recoveryOwnerships := recoveryOwnerships - {id};
      Record(Bookkeeping(BookWrite.Release(id, owner)));
      return true;
    }

    method GetStreamCursor(id: RequestId) returns (cursor: Option<Cursor>)
      ensures cursor == if id in Model().books.cursors then Some(Model().books.cursors[id]) else None
    {
      return if id in streamCursors then Some(streamCursors[id]) else None;
    }

    method PutStreamCursor(cursor: Cursor)
      requires Valid()
      modifies this`streamCursors, this`log
      ensures Did(Bookkeeping(BookWrite.PutCursor(cursor)))
    {
      streamCursors := streamCursors[cursor.requestId := cursor];
      Record(Bookkeeping(BookWrite.PutCursor(cursor)));
    }

    // --- workers ---

    method GetWorker(id: WorkerId) returns (record: Option<Worker>)
      ensures record == if id in Model().workers then Some(Model().workers[id]) else None
    {
      return if id in workers then Some(workers[id]) else None;
    }

    /** Every worker once. */
    method ListWorkers() returns (list: seq<Worker>)
      ensures multiset(list) == Values(Model().workers)
    {
      list := ListAll(workers);
    }

    method PutWorker(record: Worker)
      requires Valid()
      modifies this`workers, this`log
      ensures Did(Workers(WorkerWrite.PutWorker(record)))
    {
      workers := workers[record.id := record];
      Record(Workers(WorkerWrite.PutWorker(record)));
    }

    method DeleteWorker(id: WorkerId)
      requires Valid()
      modifies this`workers, this`log
      ensures Did(Workers(WorkerWrite.DeleteWorker(id)))
    {
      workers := workers - {id};
      Record(Workers(WorkerWrite.DeleteWorker(id)));
    }

    /** Field writes on the record that `getWorker` just returned. */
    method SetWorkerStage(id: WorkerId, generation: Generation, stage: WorkerStage)
      requires Valid() && GenerationStored(workers, id, generation)
      modifies this`workers, this`log
      ensures Did(Workers(WorkerWrite.SetWorkerStage(id, generation, stage)))
    {
      workers := workers[id := workers[id].(stage := stage)];
      Record(Workers(WorkerWrite.SetWorkerStage(id, generation, stage)));
    }

    method SetWorkerSegment(id: WorkerId, generation: Generation, current: Option<nat>)
      requires Valid() && GenerationStored(workers, id, generation)
      modifies this`workers, this`log
      ensures Did(Workers(WorkerWrite.SetWorkerSegment(id, generation, current)))
    {
      workers := workers[id := workers[id].(currentSegment := current)];
      Record(Workers(WorkerWrite.SetWorkerSegment(id, generation, current)));
    }

    method SetHeartbeat(id: WorkerId, generation: Generation, at: nat)
      requires Valid() && GenerationStored(workers, id, generation)
      modifies this`workers, this`log
      ensures Did(Workers(WorkerWrite.SetHeartbeat(id, generation, at)))
    {
      workers := workers[id := workers[id].(lastHeartbeat := at)];
      Record(Workers(WorkerWrite.SetHeartbeat(id, generation, at)));
    }
  }

  /** Patching the first attempt found is patching at its index. */
  lemma {:induction false} PatchFirstFinds(list: seq<Attempt>, i: nat, id: AttemptId, outcome: AttemptOutcome,
                                           error: Option<ErrorCode>)
    requires i <= |list| && forall k :: 0 <= k < i ==> list[k].attemptId != id
    requires i < |list| ==> list[i].attemptId == id
    ensures PatchFirst(list, id, outcome, error)
         == if i < |list| then list[i := Patched(list[i], outcome, error)] else list
  {
    if i > 0 {
      PatchFirstFinds(list[1..], i - 1, id, outcome, error);
      assert list == [list[0]] + list[1..];
    }
  }
}
