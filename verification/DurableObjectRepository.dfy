/**
 * The durable adapter: every record in one key/value storage, leases with an
 * index by identifier, views that write a single field through. It answers
 * and changes the abstract store exactly as the in-memory repository does.
 */
module DurableObjectRepositories {
  import opened Options
  import opened RequestStages
  import opened DurableTypes
  import opened Store
  import opened Steps
  import opened DurableObjectKeys
  import opened DurableObjectCells
  import opened InMemoryRepositories
  import opened Tallies

  /** The synchronous key/value storage of one durable object. */
  class KvStorage {
    var kv: map<string, Value>

    constructor ()
      ensures kv == map[]
    {
      kv := map[];
    }

    method Get(key: string) returns (value: Option<Value>)
      ensures value == Lookup(kv, key)
    {
      return if key in kv then Some(kv[key]) else None;
    }

    method Put(key: string, value: Value)
      modifies this
      ensures kv == old(kv)[key := value]
    {
      kv := kv[key := value];
    }

    method Delete(key: string)
      modifies this
      ensures kv == old(kv) - {key}
    {
      kv := kv - {key};
    }

    /** The keys that start with a prefix, each once. */
    method List(prefix: string) returns (keys: seq<string>)
      ensures forall key :: key in keys <==> key in kv && prefix <= key
      ensures forall i, j :: 0 <= i < j < |keys| ==> keys[i] != keys[j]
    {
      keys := [];
      var rest := kv.Keys;
      while rest != {}
        invariant rest <= kv.Keys
        invariant forall key :: key in keys <==> key in kv && key !in rest && prefix <= key
        invariant forall i, j :: 0 <= i < j < |keys| ==> keys[i] != keys[j]
        decreases rest
      {
        var key :| key in rest;
        rest := rest - {key};
        if prefix <= key {
          keys := keys + [key];
        }
      }
    }
  }

  /** Slots and leases sit under the identity inside them. */
  predicate Keyed(s: Store) {
    && (forall k :: k in s.checkpoints ==> s.checkpoints[k].requestId == k.0 && s.checkpoints[k].segment == k.1)
    && (forall r :: r in s.leases ==> s.leases[r].requestId == r)
  }

  /** What deleting a request's checkpoints removes here: that request's, and no one else's. */
  function OwnDeleted(m: map<(RequestId, nat), Checkpoint>, id: RequestId): map<(RequestId, nat), Checkpoint> {
    map k | k in m && k.0 != id :: m[k]
  }

  class DurableObjectRepository {
    const enc: string -> string
    const storage: KvStorage
    ghost var store: Store

    constructor (enc: string -> string, storage: KvStorage)
      requires EncoderOk(enc) && storage.kv == map[]
      ensures this.enc == enc && this.storage == storage && Valid() && store == Empty
    {
      this.enc := enc;
      this.storage := storage;
      store := Empty;
    }

    ghost predicate Valid()
      reads this, storage
    {
      EncoderOk(enc) && Represents(storage.kv, enc, store) && UniqueLeaseIds(store.leases) && Keyed(store)
    }

    function Name(k: Key): string { Render(enc, k) }

    twostate predicate Did(op: Op)
      reads this, storage
    {
      Valid() && store == Apply(old(store), op)
    }

    twostate predicate DidNothing()
      reads this, storage
    {
      Valid() && store == old(store)
    }

    lemma Held(k: Key)
      requires Valid()
      ensures Lookup(storage.kv, Name(k)) == Expect(store, k)
    {}

    /** Write the one key whose content the new abstract store changes. */
    method Write(k: Key, v: Value, ghost t: Store)
      requires Valid() && UniqueLeaseIds(t.leases) && Keyed(t)
      requires Expect(t, k) == Some(v)
      requires forall other :: other != k ==> Expect(t, other) == Expect(store, other)
      modifies this, storage
      ensures Valid() && store == t
    {
      hide Expect, EncoderOk, UniqueLeaseIds, Keyed;
      PutOne(storage.kv, enc, store, t, k, v);
      storage.Put(Name(k), v);
      store := t;
    }

    method Erase(k: Key, ghost t: Store)
      requires Valid() && UniqueLeaseIds(t.leases) && Keyed(t)
      requires Expect(t, k) == None
      requires forall other :: other != k ==> Expect(t, other) == Expect(store, other)
      modifies this, storage
      ensures Valid() && store == t
    {
      hide Expect, EncoderOk, UniqueLeaseIds, Keyed;
      DeleteOne(storage.kv, enc, store, t, k);
      storage.Delete(Name(k));
      store := t;
    }

    /** Write two keys for one abstract change, in this order. */
    method WritePair(k: Key, v: Value, l: Key, u: Value, ghost t: Store)
      requires EncoderOk(enc) && RepresentsBut(storage.kv, enc, t, {k, l})
      requires Expect(t, k) == Some(v) && Expect(t, l) == Some(u)
      modifies storage
      ensures Represents(storage.kv, enc, t)
    {
      hide Expect, EncoderOk, RepresentsBut;
      PutCell(storage.kv, enc, t, {k, l}, k, v);
      storage.Put(Name(k), v);
      PutCell(storage.kv, enc, t, {k, l} - {k}, l, u);
      storage.Put(Name(l), u);
      assert {k, l} - {k} - {l} == {};
    }

    method ErasePair(k: Key, l: Key, ghost t: Store)
      requires EncoderOk(enc) && RepresentsBut(storage.kv, enc, t, {k, l})
      requires Expect(t, k) == None && Expect(t, l) == None
      modifies storage
      ensures Represents(storage.kv, enc, t)
    {
      hide Expect, EncoderOk, RepresentsBut;
      DeleteCell(storage.kv, enc, t, {k, l}, k);
      storage.Delete(Name(k));
      DeleteCell(storage.kv, enc, t, {k, l} - {k}, l);
      storage.Delete(Name(l));
      assert {k, l} - {k} - {l} == {};
    }

    // --- request state ---

    method CreateRequest(record: Request)
      requires Valid()
      modifies this, storage
      ensures Did(Requests(RequestWrite.CreateRequest(record)))
    {
      hide Represents, EncoderOk;
      Write(RequestKey(record.id), RequestValue(record), Apply(store, Requests(RequestWrite.CreateRequest(record))));
    }

    method GetRequest(id: RequestId) returns (record: Option<Request>)
      requires Valid()
      ensures record == if id in store.requests then Some(store.requests[id]) else None
    {
      Held(RequestKey(id));
      var value := storage.Get(Name(RequestKey(id)));
      return if value.Some? && value.value.RequestValue? then Some(value.value.request) else None;
    }

    /** Every request once. */
    method ListRequests() returns (list: seq<Request>)
      requires Valid()
      ensures multiset(list) == Values(store.requests)
    {
      hide Represents, EncoderOk, Holds, Values;
      ghost var key, wrap := (id: RequestId) => RequestKey(id), (r: Request) => RequestValue(r);
      HoldsRequests(enc, store, key, wrap);
      AllWrapped(storage.kv, enc, store, "request:", store.requests, key, wrap);
      var keys := storage.List("request:");
      list := [];
      for i := 0 to |keys|
        invariant |list| == i && forall j :: 0 <= j < i ==> storage.kv[keys[j]] == wrap(list[j])
      {
        assert keys[i] in keys;
        var value := storage.Get(keys[i]);
        list := list + [value.value.request];
      }
      ListingIsExact(storage.kv, enc, store, "request:", store.requests, key, wrap, keys, list);
    }

    method TransitionStage(id: RequestId, expected: Stage, next: Stage) returns (ok: bool)
      requires Valid()
      modifies this, storage
      ensures ok == InStage(old(store).requests, id, expected)
      ensures if ok then Did(Requests(RequestWrite.Transition(id, expected, next))) else DidNothing()
    {
      hide Represents, EncoderOk;
      var record := GetRequest(id);
      if record.None? || record.value.stage != expected { return false; }
      Write(RequestKey(id), RequestValue(record.value.(stage := next)),
            Apply(store, Requests(RequestWrite.Transition(id, expected, next))));
      return true;
    }

    /**
     * A property written on a record view: the latest stored record gets this
     * one property, however stale the view is.
     */
    method SetRequestField(view: Request, write: RequestWrite)
      requires Valid() && FieldWrite(view, write)
      modifies this, storage
      ensures view.id in old(store).requests ==> Did(Requests(write))
      ensures view.id !in old(store).requests ==>
                Valid() && store == old(store).(requests := old(store).requests[view.id := WithField(view, write)])
    {
      hide Represents, EncoderOk;
      var latest := GetRequest(view.id);
      var persisted := WithField(if latest.Some? then latest.value else view, write);
      Write(RequestKey(view.id), RequestValue(persisted), store.(requests := store.requests[view.id := persisted]));
    }

    // --- idempotency ---

    method GetIdempotencyMapping(key: IdempotencyKey) returns (id: Option<RequestId>)
      requires Valid()
      ensures id == if key in store.books.keys then Some(store.books.keys[key]) else None
    {
      Held(MappingKey(key));
      var value := storage.Get(Name(MappingKey(key)));
      return if value.Some? && value.value.IdValue? then Some(value.value.id) else None;
    }

    method PutIdempotencyMapping(key: IdempotencyKey, id: RequestId) returns (ok: bool)
      requires Valid()
      modifies this, storage
      ensures ok == (key in old(store).books.keys ==> old(store).books.keys[key] == id)
      ensures if ok then Did(Bookkeeping(BookWrite.BindKey(key, id))) else DidNothing()
    {
      hide Represents, EncoderOk;
      Held(MappingKey(key));
      var existing := storage.Get(Name(MappingKey(key)));
      if existing.Some? && existing.value != IdValue(id) { return false; }
      Write(MappingKey(key), IdValue(id), Apply(store, Bookkeeping(BookWrite.BindKey(key, id))));
      return true;
    }

    // --- attempt history ---

    /** The attempts of a request in the order they were appended. */
    method ListAttempts(id: RequestId) returns (list: seq<Attempt>)
      requires Valid()
      ensures list == if id in store.books.attempts then store.books.attempts[id] else []
    {
      var found := StoredAttempts(id);
      return if found.Some? then found.value else [];
    }

    method StoredAttempts(id: RequestId) returns (list: Option<seq<Attempt>>)
      requires Valid()
      ensures list == if id in store.books.attempts then Some(store.books.attempts[id]) else None
    {
      Held(AttemptsKey(id));
      var value := storage.Get(Name(AttemptsKey(id)));
      return if value.Some? && value.value.AttemptsValue? then Some(value.value.attempts) else None;
    }

    method AppendAttempt(attempt: Attempt)
      requires Valid()
      modifies this, storage
      ensures Did(Bookkeeping(BookWrite.AppendAttempt(attempt)))
    {
      hide Represents, EncoderOk;
      var list := StoredAttempts(attempt.requestId);
      Write(AttemptsKey(attempt.requestId), AttemptsValue((if list.Some? then list.value else []) + [attempt]),
            Apply(store, Bookkeeping(BookWrite.AppendAttempt(attempt))));
    }

    method UpdateAttempt(id: RequestId, attemptId: AttemptId, outcome: AttemptOutcome, error: Option<ErrorCode>)
      requires Valid()
      modifies this, storage
      ensures Did(Bookkeeping(BookWrite.UpdateAttempt(id, attemptId, outcome, error)))
    {
      hide Represents, EncoderOk, PatchFirst, Patched;
      var found := StoredAttempts(id);
      if found.None? { return; }
      var list := found.value;
      var i := 0;
      while i < |list| && list[i].attemptId != attemptId
        invariant 0 <= i <= |list|
        invariant forall k :: 0 <= k < i ==> list[k].attemptId != attemptId
      {
        i := i + 1;
      }
      PatchFirstFinds(list, i, attemptId, outcome, error);
      if i == |list| {
        assert store.books.attempts == store.books.attempts[id := list];
        return;
      }
      Write(AttemptsKey(id), AttemptsValue(list[i := Patched(list[i], outcome, error)]),
            Apply(store, Bookkeeping(BookWrite.UpdateAttempt(id, attemptId, outcome, error))));
    }

    // --- leases ---

    method GetActiveLease(id: RequestId) returns (lease: Option<Lease>)
      requires Valid()
      ensures lease == if id in store.leases then Some(store.leases[id]) else None
    {
      Held(LeaseKey(id));
      var value := storage.Get(Name(LeaseKey(id)));
      return if value.Some? && value.value.LeaseValue? then Some(value.value.lease) else None;
    }

    /** Every lease once: the prefix of leases lists no index entry. */
    method ListActiveLeases() returns (list: seq<Lease>)
      requires Valid()
      ensures multiset(list) == Values(store.leases)
    {
      hide Represents, EncoderOk, Holds, Values;
      ghost var key, wrap := (id: RequestId) => LeaseKey(id), (l: Lease) => LeaseValue(l);
      HoldsLeases(enc, store, key, wrap);
      AllWrapped(storage.kv, enc, store, "lease:", store.leases, key, wrap);
      var keys := storage.List("lease:");
      list := [];
      for i := 0 to |keys|
        invariant |list| == i && forall j :: 0 <= j < i ==> storage.kv[keys[j]] == wrap(list[j])
      {
        assert keys[i] in keys;
        var value := storage.Get(keys[i]);
        list := list + [value.value.lease];
      }
      ListingIsExact(storage.kv, enc, store, "lease:", store.leases, key, wrap, keys, list);
    }

    /** The index entry of the lease being replaced goes first. */
    method DropStaleIndex(previous: Option<Lease>, lease: Lease, ghost t: Store)
      requires Valid()
      requires previous == if lease.requestId in store.leases then Some(store.leases[lease.requestId]) else None
      requires t == store.(leases := store.leases[lease.requestId := lease]) && NotElsewhere(store.leases, lease)
      modifies storage
      ensures RepresentsBut(storage.kv, enc, t, {LeaseKey(lease.requestId), LeaseIndexKey(lease.leaseId)})
    {
      hide Expect, EncoderOk, RepresentsBut, UniqueLeaseIds, Keyed;
      ghost var rest := {LeaseKey(lease.requestId), LeaseIndexKey(lease.leaseId)};
      ghost var stale := StaleIndex(store.leases, lease);
      forall k { LeasePutTouches(store, lease, k); }
      ChangesBut(storage.kv, enc, store, t, stale + rest);
      if previous.Some? && previous.value.leaseId != lease.leaseId {
        DeleteCell(storage.kv, enc, t, stale + rest, LeaseIndexKey(previous.value.leaseId));
        storage.Delete(Name(LeaseIndexKey(previous.value.leaseId)));
        assert stale + rest - {LeaseIndexKey(previous.value.leaseId)} == rest;
      } else {
        assert stale + rest == rest;
      }
    }

    /** The lease and its own index entry come. */
    method PutLease(lease: Lease)
      requires Valid() && NotElsewhere(store.leases, lease)
      modifies this, storage
      ensures Did(Leases(LeaseWrite.PutLease(lease)))
    {
      hide Expect, EncoderOk, RepresentsBut, Represents;
      ghost var t := store.(leases := store.leases[lease.requestId := lease]);
      LeasePutTouches(store, lease, LeaseKey(lease.requestId));
      LeasePutTouches(store, lease, LeaseIndexKey(lease.leaseId));
      var previous := GetActiveLease(lease.requestId);
      DropStaleIndex(previous, lease, t);
      WritePair(LeaseKey(lease.requestId), LeaseValue(lease), LeaseIndexKey(lease.leaseId), IdValue(lease.requestId),
                t);
      store := t;
    }

    /** Through the index to the request, and only the lease itself is deleted. */
    method DeleteLease(lease: LeaseId)
      requires Valid()
      modifies this, storage
      ensures Did(Leases(LeaseWrite.DeleteLease(lease)))
    {
      hide EncoderOk, RepresentsBut;
      Held(LeaseIndexKey(lease));
      var index := storage.Get(Name(LeaseIndexKey(lease)));
      NoHolder(store.leases, lease);
      if index.None? || !index.value.IdValue? { return; }
      var r := index.value.id;
      var active := GetActiveLease(r);
      assert active.Some? && active.value.leaseId == lease;
      EraseLease(r, lease);
    }

    method EraseLease(r: RequestId, lease: LeaseId)
      requires Valid() && r in store.leases && store.leases[r].leaseId == lease
      modifies this, storage
      ensures Did(Leases(LeaseWrite.DeleteLease(lease)))
    {
      hide Expect, EncoderOk, RepresentsBut, Represents, UniqueLeaseIds, Keyed, Apply;
      ghost var t := store.(leases := store.leases - {r});
      LeaseDropped(store, r);
      forall k { LeaseDeleteTouches(store, r, k); }
      LeaseDeleteTouches(store, r, LeaseKey(r));
      LeaseDeleteTouches(store, r, LeaseIndexKey(lease));
      ChangesBut(storage.kv, enc, store, t, {LeaseKey(r), LeaseIndexKey(lease)});
      ErasePair(LeaseKey(r), LeaseIndexKey(lease), t);
      store := t;
    }

    // --- checkpoints ---

    method GetCheckpoint(id: RequestId, segment: nat) returns (c: Option<Checkpoint>)
      requires Valid()
      ensures c == if (id, segment) in store.checkpoints then Some(store.checkpoints[(id, segment)]) else None
    {
      Held(CheckpointKey(id, segment));
      var value := storage.Get(Name(CheckpointKey(id, segment)));
      return if value.Some? && value.value.CheckpointValue? then Some(value.value.checkpoint) else None;
    }

    method PutCheckpoint(c: Checkpoint) returns (answer: CheckpointStored)
      requires Valid()
      modifies this, storage
      ensures var key := (c.requestId, c.segment);
              answer == if key !in old(store).checkpoints then Stored
                        else if old(store).checkpoints[key].payloadDigest == c.payloadDigest then Unchanged
                            else Conflict
      ensures if answer == Conflict then DidNothing() else Did(Checkpoints(CheckpointWrite.PutCheckpoint(c)))
    {
      hide Represents, EncoderOk;
      var existing := GetCheckpoint(c.requestId, c.segment);
      if existing.Some? {
        return if existing.value.payloadDigest == c.payloadDigest then Unchanged else Conflict;
      }
      Write(CheckpointKey(c.requestId, c.segment), CheckpointValue(c),
            Apply(store, Checkpoints(CheckpointWrite.PutCheckpoint(c))));
      return Stored;
    }

    method DeleteCheckpoint(id: RequestId, segment: nat)
      requires Valid()
      modifies this, storage
      ensures Did(Checkpoints(CheckpointWrite.DeleteCheckpoint(id, segment)))
    {
      hide Represents, EncoderOk;
      Erase(CheckpointKey(id, segment), Apply(store, Checkpoints(CheckpointWrite.DeleteCheckpoint(id, segment))));
    }

    /** List a prefix, then delete every key listed. */
    method DropPrefix(prefix: string)
      modifies storage
      ensures storage.kv == map key | key in old(storage.kv) && !(prefix <= key) :: old(storage.kv)[key]
    {
      var keys := storage.List(prefix);
      for i := 0 to |keys|
        invariant storage.kv == map key | key in old(storage.kv) && key !in keys[..i] :: old(storage.kv)[key]
      {
        assert keys[..i + 1] == keys[..i] + [keys[i]];
        storage.Delete(keys[i]);
      }
      assert keys[..|keys|] == keys;
    }

    /** Exactly the request's own slots go; the same as in memory unless another identifier extends `id:`. */
    method DeleteCheckpointsForRequest(id: RequestId)
      requires Valid()
      modifies this, storage
      ensures Valid() && store == old(store).(checkpoints := OwnDeleted(old(store).checkpoints, id))
      ensures NoOtherExtends(old(store).checkpoints, id) ==> Did(Checkpoints(CheckpointWrite.DeleteCheckpoints(id)))
    {
      ghost var t := store.(checkpoints := OwnDeleted(store.checkpoints, id));
      ghost var before := storage.kv;
      DropPrefix(CheckpointPrefix(enc, id));
      PrefixDropRepresents(before, storage.kv, enc, store, id);
      OwnDeletedIsDelete(store.checkpoints, id);
      store := t;
    }

    /** The checkpoints of one request, each once, in the order of the storage. */
    method ListCheckpoints(id: RequestId) returns (list: seq<Checkpoint>)
      requires Valid()
      ensures Steps.ListsCheckpoints(store, id, list)
    {
      hide Represents, EncoderOk, Holds, Values;
      ghost var key, wrap := (x: (RequestId, nat)) => CheckpointKey(x.0, x.1), (c: Checkpoint) => CheckpointValue(c);
      HoldsOwn(enc, store, id, key, wrap);
      AllWrapped(storage.kv, enc, store, CheckpointPrefix(enc, id), OwnedBy(store.checkpoints, id), key, wrap);
      var keys := storage.List(CheckpointPrefix(enc, id));
      list := [];
      for i := 0 to |keys|
        invariant |list| == i && forall j :: 0 <= j < i ==> storage.kv[keys[j]] == wrap(list[j])
      {
        assert keys[i] in keys;
        var value := storage.Get(keys[i]);
        list := list + [value.value.checkpoint];
      }
      ListingIsExact(storage.kv, enc, store, CheckpointPrefix(enc, id), OwnedBy(store.checkpoints, id), key, wrap, keys,
                     list);
    }

    /** Every checkpoint once. */
    method AllCheckpoints() returns (list: seq<Checkpoint>)
      requires Valid()
      ensures multiset(list) == Values(store.checkpoints)
    {
      hide Represents, EncoderOk, Holds, Values;
      ghost var key, wrap := (x: (RequestId, nat)) => CheckpointKey(x.0, x.1), (c: Checkpoint) => CheckpointValue(c);
      HoldsCheckpoints(enc, store, key, wrap);
      AllWrapped(storage.kv, enc, store, "checkpoint:", store.checkpoints, key, wrap);
      var keys := storage.List("checkpoint:");
      list := [];
      for i := 0 to |keys|
        invariant |list| == i && forall j :: 0 <= j < i ==> storage.kv[keys[j]] == wrap(list[j])
      {
        assert keys[i] in keys;
        var value := storage.Get(keys[i]);
        list := list + [value.value.checkpoint];
      }
      ListingIsExact(storage.kv, enc, store, "checkpoint:", store.checkpoints, key, wrap, keys, list);
    }

    /** Walk every stored checkpoint, delete the expired ones, and list what was deleted. */
    method DropExpiredValues(now: nat) returns (expired: seq<Checkpoint>, ghost dropped: map<string, Checkpoint>)
      modifies storage
      ensures storage.kv == UnexpiredValues(old(storage.kv), now)
      ensures dropped == ExpiredValues(old(storage.kv), now) && multiset(expired) == Values(dropped)
    {
      hide Values, Swept, UnexpiredValues, ExpiredValues;
      expired, dropped := [], map[];
      NothingHeld<string, Checkpoint>();
      var keys := storage.List("checkpoint:");
      SweptNothing(storage.kv, now);
      for i := 0 to |keys|
        invariant Swept(old(storage.kv), storage.kv, dropped, keys[..i], now)
        invariant multiset(expired) == Values(dropped)
      {
        assert keys[..i + 1] == keys[..i] + [keys[i]];
        assert keys[i] in keys && keys[i] !in keys[..i];
        SweptOne(old(storage.kv), storage.kv, dropped, keys[..i], keys[i], now);
        var value := storage.Get(keys[i]);
        if value.Some? && ExpiredValue(value.value, now) {
          ValuesAdd(dropped, keys[i], value.value.checkpoint);
          expired := expired + [value.value.checkpoint];
          dropped := dropped[keys[i] := value.value.checkpoint];
          storage.Delete(keys[i]);
        }
      }
      assert keys[..|keys|] == keys;
      SweptAll(old(storage.kv), storage.kv, dropped, keys, now);
    }

    /** The expired checkpoints are deleted, and each is handed back once. */
    method CollectExpiredCheckpoints(now: nat) returns (expired: seq<Checkpoint>)
      requires Valid()
      modifies this, storage
      ensures Did(Checkpoints(CheckpointWrite.CollectExpired(now)))
      ensures multiset(expired) == Values(PastTtl(old(store).checkpoints, now))
    {
      hide Values, PastTtl;
      ghost var before := storage.kv;
      ghost var dropped: map<string, Checkpoint>;
      expired, dropped := DropExpiredValues(now);
      ExpiredTally(before, enc, store, now, dropped);
      CollectRepresents(before, enc, store, now);
      store := Apply(store, Checkpoints(CheckpointWrite.CollectExpired(now)));
    }

    // --- completion ---

    method GetResult(id: RequestId) returns (result: Option<Result>)
      requires Valid()
      ensures result == if id in store.results then Some(store.results[id]) else None
    {
      Held(ResultKey(id));
      var value := storage.Get(Name(ResultKey(id)));
      return if value.Some? && value.value.ResultValue? then Some(value.value.result) else None;
    }

    /** The result first, then the stage: two puts without an await between them. */
    method CommitCompletion(id: RequestId, expected: Stage, result: Result) returns (answer: Completion)
      requires Valid() && result.requestId == id
      modifies this, storage
      ensures answer == if id in old(store).results then DuplicateResult
                        else if InStage(old(store).requests, id, expected) then Committed else StageConflict
      ensures if answer == Committed then Did(Commit(id, expected, result)) else DidNothing()
    {
      hide EncoderOk, RepresentsBut, Expect, UniqueLeaseIds;
      var existing := GetResult(id);
      if existing.Some? { return DuplicateResult; }
      var record := GetRequest(id);
      if record.None? || record.value.stage != expected { return StageConflict; }
      ghost var t := Apply(store, Commit(id, expected, result));
      CommitTouches(store, id, expected, result);
      ChangesBut(storage.kv, enc, store, t, {ResultKey(id), RequestKey(id)});
      WritePair(ResultKey(id), ResultValue(result), RequestKey(id), RequestValue(record.value.(stage := Completed)), t);
      store := t;
      return Committed;
    }

    // --- cancellation, recovery ownership, cursor ---

    method GetCancellation(id: RequestId) returns (record: Option<Cancellation>)
      requires Valid()
      ensures record == if id in store.cancellations then Some(store.cancellations[id]) else None
    {
      Held(CancellationKey(id));
      var value := storage.Get(Name(CancellationKey(id)));
      return if value.Some? && value.value.CancellationValue? then Some(value.value.cancellation) else None;
    }

    method PutCancellation(id: RequestId, record: Cancellation)
      requires Valid() && record.requestId == id
      modifies this, storage
      ensures Did(Op.PutCancellation(id, record))
    {
      hide Represents, EncoderOk;
      Write(CancellationKey(id), CancellationValue(record), Apply(store, Op.PutCancellation(id, record)));
    }

    method GetRecoveryOwnership(id: RequestId) returns (o: Option<Ownership>)
      requires Valid()
      ensures o == if id in store.books.ownerships then Some(store.books.ownerships[id]) else None
    {
      Held(RecoveryKey(id));
      var value := storage.Get(Name(RecoveryKey(id)));
      return if value.Some? && value.value.OwnershipValue? then Some(value.value.ownership) else None;
    }

    method ClaimRecoveryOwnership(o: Ownership, now: nat) returns (answer: ClaimResult)
      requires Valid()
      modifies this, storage
      ensures answer == RefusedByPeer <==> !ClaimFires(old(store).books.ownerships, o, now)
      ensures answer == Renewed <==>
                o.requestId in old(store).books.ownerships
                    && old(store).books.ownerships[o.requestId].ownerId == o.ownerId
      ensures if answer == RefusedByPeer then DidNothing() else Did(Bookkeeping(BookWrite.Claim(o, now)))
    {
      hide Represents, EncoderOk;
      var existing := GetRecoveryOwnership(o.requestId);
      if existing.Some? && existing.value.ownerId != o.ownerId && now < existing.value.expiresAt {
        return RefusedByPeer;
      }
      Write(RecoveryKey(o.requestId), OwnershipValue(o), Apply(store, Bookkeeping(BookWrite.Claim(o, now))));
      return if existing.Some? && existing.value.ownerId == o.ownerId then Renewed else Claimed;
    }

    method ReleaseRecoveryOwnership(id: RequestId, owner: OwnerId) returns (ok: bool)
      requires Valid()
      modifies this, storage
      ensures ok == ReleaseFires(old(store).books.ownerships, id, owner)
      ensures if ok then Did(Bookkeeping(BookWrite.Release(id, owner))) else DidNothing()
    {
      hide Represents, EncoderOk;
      var existing := GetRecoveryOwnership(id);
      if existing.None? || existing.value.ownerId != owner { return false; }
      Erase(RecoveryKey(id), Apply(store, Bookkeeping(BookWrite.Release(id, owner))));
      return true;
    }

    method GetStreamCursor(id: RequestId) returns (cursor: Option<Cursor>)
      requires Valid()
      ensures cursor == if id in store.books.cursors then Some(store.books.cursors[id]) else None
    {
      Held(CursorKey(id));
      var value := storage.Get(Name(CursorKey(id)));
      return if value.Some? && value.value.CursorValue? then Some(value.value.cursor) else None;
    }

    method PutStreamCursor(cursor: Cursor)
      requires Valid()
      modifies this, storage
      ensures Did(Bookkeeping(BookWrite.PutCursor(cursor)))
    {
      hide Represents, EncoderOk;
      Write(CursorKey(cursor.requestId), CursorValue(cursor), Apply(store, Bookkeeping(BookWrite.PutCursor(cursor))));
    }

    // --- workers ---

    method GetWorker(id: WorkerId) returns (record: Option<Worker>)
      requires Valid()
      ensures record == if id in store.workers then Some(store.workers[id]) else None
    {
      Held(WorkerKey(id));
      var value := storage.Get(Name(WorkerKey(id)));
      return if value.Some? && value.value.WorkerValue? then Some(value.value.worker) else None;
    }

    /** Every worker once. */
    method ListWorkers() returns (list: seq<Worker>)
      requires Valid()
      ensures multiset(list) == Values(store.workers)
    {
      hide Represents, EncoderOk, Holds, Values;
      ghost var key, wrap := (id: WorkerId) => WorkerKey(id), (w: Worker) => WorkerValue(w);
      HoldsWorkers(enc, store, key, wrap);
      AllWrapped(storage.kv, enc, store, "worker:", store.workers, key, wrap);
      var keys := storage.List("worker:");
      list := [];
      for i := 0 to |keys|
        invariant |list| == i && forall j :: 0 <= j < i ==> storage.kv[keys[j]] == wrap(list[j])
      {
        assert keys[i] in keys;
        var value := storage.Get(keys[i]);
        list := list + [value.value.worker];
      }
      ListingIsExact(storage.kv, enc, store, "worker:", store.workers, key, wrap, keys, list);
    }

    method PutWorker(record: Worker)
      requires Valid()
      modifies this, storage
      ensures Did(Workers(WorkerWrite.PutWorker(record)))
    {
      hide Represents, EncoderOk;
      Write(WorkerKey(record.id), WorkerValue(record), Apply(store, Workers(WorkerWrite.PutWorker(record))));
    }

    method DeleteWorker(id: WorkerId)
      requires Valid()
      modifies this, storage
      ensures Did(Workers(WorkerWrite.DeleteWorker(id)))
    {
      hide Represents, EncoderOk;
      Erase(WorkerKey(id), Apply(store, Workers(WorkerWrite.DeleteWorker(id))));
    }

    /**
     * A property written on a worker view: only while the stored generation is
     * the view's, so a view of a replaced generation neither changes nor
     * resurrects anything.
     */
    method SetWorkerField(id: WorkerId, generation: Generation, write: WorkerWrite)
      requires Valid() && WorkerFieldWrite(id, generation, write)
      modifies this, storage
      ensures Did(Workers(write))
      ensures !GenerationStored(old(store).workers, id, generation) ==> DidNothing()
    {
      hide Represents, EncoderOk;
      var latest := GetWorker(id);
      if latest.None? || latest.value.generation != generation { return; }
      Write(WorkerKey(id), WorkerValue(WithWorkerField(latest.value, write)), Apply(store, Workers(write)));
    }
  }

  lemma CommitTouches(s: Store, id: RequestId, expected: Stage, result: Result)
    requires CommitFires(s, id, expected, result)
    ensures var t := Apply(s, Commit(id, expected, result));
            && (forall k :: k !in {ResultKey(id), RequestKey(id)} ==> Expect(t, k) == Expect(s, k))
            && Expect(t, ResultKey(id)) == Some(ResultValue(result))
            && Expect(t, RequestKey(id)) == Some(RequestValue(s.requests[id].(stage := Completed)))
            && t.leases == s.leases && t.checkpoints == s.checkpoints
  {}

  predicate WorkerFieldWrite(id: WorkerId, generation: Generation, write: WorkerWrite) {
    match write
    case SetWorkerStage(w, g, _) => w == id && g == generation
    case SetWorkerSegment(w, g, _) => w == id && g == generation
    case SetHeartbeat(w, g, _) => w == id && g == generation
    case _ => false
  }

  function WithWorkerField(record: Worker, write: WorkerWrite): Worker {
    match write
    case SetWorkerStage(_, _, stage) => record.(stage := stage)
    case SetWorkerSegment(_, _, current) => record.(currentSegment := current)
    case SetHeartbeat(_, _, at) => record.(lastHeartbeat := at)
    case _ => record
  }

  predicate ExpiredValue(v: Value, now: nat) {
    v.CheckpointValue? && now >= v.checkpoint.createdAt + v.checkpoint.ttlMs
  }

  function ExpiredValues(kv: map<string, Value>, now: nat): map<string, Checkpoint> {
    map key | key in kv && "checkpoint:" <= key && ExpiredValue(kv[key], now) :: kv[key].checkpoint
  }

  function UnexpiredValues(kv: map<string, Value>, now: nat): map<string, Value> {
    map key | key in kv && !("checkpoint:" <= key && ExpiredValue(kv[key], now)) :: kv[key]
  }

  /** The keys walked so far have lost their expired values, and nothing else has changed. */
  ghost predicate Swept(before: map<string, Value>, after: map<string, Value>, dropped: map<string, Checkpoint>,
                        walked: seq<string>, now: nat) {
    && (forall key :: key in after <==> key in before && !(key in walked && ExpiredValue(before[key], now)))
    && (forall key :: key in after ==> after[key] == before[key])
    && (forall key :: key in dropped <==> key in before && key in walked && ExpiredValue(before[key], now))
    && (forall key :: key in dropped ==> dropped[key] == before[key].checkpoint)
  }

  lemma SweptNothing(kv: map<string, Value>, now: nat)
    ensures Swept(kv, kv, map[], [], now)
  {}

  lemma SweptOne(before: map<string, Value>, after: map<string, Value>, dropped: map<string, Checkpoint>,
                 walked: seq<string>, key: string, now: nat)
    requires Swept(before, after, dropped, walked, now) && key in before && key !in walked
    ensures key in after && after[key] == before[key] && key !in dropped
    ensures if ExpiredValue(before[key], now)
            then Swept(before, after - {key}, dropped[key := before[key].checkpoint], walked + [key], now)
            else Swept(before, after, dropped, walked + [key], now)
  {}

  lemma SweptAll(before: map<string, Value>, after: map<string, Value>, dropped: map<string, Checkpoint>,
                 walked: seq<string>, now: nat)
    requires Swept(before, after, dropped, walked, now)
    requires forall key :: key in walked <==> key in before && "checkpoint:" <= key
    ensures after == UnexpiredValues(before, now) && dropped == ExpiredValues(before, now)
  {}

  /** Only checkpoint keys hold checkpoints, so dropping the expired values drops the expired slots. */
  lemma CollectRepresents(kv: map<string, Value>, enc: string -> string, s: Store, now: nat)
    requires EncoderOk(enc) && Represents(kv, enc, s)
    ensures Represents(UnexpiredValues(kv, now), enc,
                       s.(checkpoints := ApplyCheckpoint(s.checkpoints, CollectExpired(now))))
  {
    hide Render, EncoderOk;
    var t := s.(checkpoints := ApplyCheckpoint(s.checkpoints, CollectExpired(now)));
    forall k ensures Lookup(UnexpiredValues(kv, now), Render(enc, k)) == Expect(t, k) {
      KindPrefixIsExact(enc, CheckpointKey("", 0), k);
      assert Lookup(kv, Render(enc, k)) == Expect(s, k);
    }
  }

  /** No other request's identifier starts with `id:`. */
  predicate NoOtherExtends(m: map<(RequestId, nat), Checkpoint>, id: RequestId) {
    forall k :: k in m ==> !(id + ":" <= k.0)
  }

  /** The in-memory prefix deletion is the adapter's exactly when no stored identifier extends `id:`. */
  lemma OwnDeletedIsDelete(m: map<(RequestId, nat), Checkpoint>, id: RequestId)
    ensures ApplyCheckpoint(m, DeleteCheckpoints(id)) == OwnDeleted(m, id) <==> NoOtherExtends(m, id)
  {
    var n, o := ApplyCheckpoint(m, DeleteCheckpoints(id)), OwnDeleted(m, id);
    if k :| k in m && id + ":" <= k.0 {
      assert k.0 != id;
      assert k in o && k !in n;
    }
  }

  /** The two repositories do differ when an identifier contains the separator. */
  lemma SeparatorsMakeADifference(c: Checkpoint)
    ensures var m := map[("a:1", 0) := c];
            ApplyCheckpoint(m, DeleteCheckpoints("a")) == map[] && OwnDeleted(m, "a") == m
  {
    assert "a" + ":" <= "a:1";
  }

  /** Dropping a request's prefix leaves what a store without its checkpoints holds. */
  lemma PrefixDropRepresents(before: map<string, Value>, after: map<string, Value>, enc: string -> string, s: Store,
                             id: RequestId)
    requires EncoderOk(enc) && Represents(before, enc, s)
    requires after == map key | key in before && !(CheckpointPrefix(enc, id) <= key) :: before[key]
    ensures Represents(after, enc, s.(checkpoints := OwnDeleted(s.checkpoints, id)))
  {
    hide Render, CheckpointPrefix, EncoderOk;
    var t := s.(checkpoints := OwnDeleted(s.checkpoints, id));
    forall k ensures Lookup(after, Render(enc, k)) == Expect(t, k) {
      CheckpointPrefixIsExact(enc, id, k);
      assert Lookup(before, Render(enc, k)) == Expect(s, k);
    }
  }

  lemma LeaseDropped(s: Store, r: RequestId)
    requires UniqueLeaseIds(s.leases) && Keyed(s) && r in s.leases
    ensures var t := s.(leases := s.leases - {r});
            t == Apply(s, Leases(DeleteLease(s.leases[r].leaseId))) && UniqueLeaseIds(t.leases) && Keyed(t)
  {
    assert s.leases - {r} == ApplyLease(s.leases, DeleteLease(s.leases[r].leaseId));
  }

  lemma NoHolder(m: map<RequestId, Lease>, lease: LeaseId)
    ensures match HolderOf(m, lease)
            case None => ApplyLease(m, DeleteLease(lease)) == m
            case Some(r) => r in m && m[r].leaseId == lease
  {}

  predicate FieldWrite(view: Request, write: RequestWrite) {
    match write
    case SetCurrentSegment(id, _) => id == view.id
    case SetRetryCount(id, _) => id == view.id
    case SetError(id, _) => id == view.id
    case _ => false
  }

  function WithField(record: Request, write: RequestWrite): Request {
    match write
    case SetCurrentSegment(_, segment) => record.(currentSegment := segment)
    case SetRetryCount(_, count) => record.(retryCount := count)
    case SetError(_, code) => record.(lastError := Some(code))
    case _ => record
  }
}
