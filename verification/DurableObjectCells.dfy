/**
 * What the key/value storage must hold for a given abstract store: one value
 * for each record, and an index entry for each active lease.
 */
module DurableObjectCells {
  import opened Options
  import opened DurableTypes
  import opened Store
  import opened DurableObjectKeys
  import opened Tallies

  datatype Value =
    | RequestValue(request: Request)
    | IdValue(id: RequestId)
    | AttemptsValue(attempts: seq<Attempt>)
    | LeaseValue(lease: Lease)
    | CheckpointValue(checkpoint: Checkpoint)
    | ResultValue(result: Result)
    | CancellationValue(cancellation: Cancellation)
    | OwnershipValue(ownership: Ownership)
    | CursorValue(cursor: Cursor)
    | WorkerValue(worker: Worker)

  function Lookup(kv: map<string, Value>, key: string): Option<Value> {
    if key in kv then Some(kv[key]) else None
  }

  /** The request that holds this lease, if one does. */
  ghost function HolderOf(leases: map<RequestId, Lease>, lease: LeaseId): Option<RequestId> {
    if r :| r in leases && leases[r].leaseId == lease then
      var q :| q in leases && leases[q].leaseId == lease;
      Some(q)
    else None
  }

  lemma HolderIs(leases: map<RequestId, Lease>, r: RequestId)
    requires UniqueLeaseIds(leases) && r in leases
    ensures HolderOf(leases, leases[r].leaseId) == Some(r)
  {}

  ghost function Expect(s: Store, k: Key): Option<Value> {
    match k
    case RequestKey(id) => if id in s.requests then Some(RequestValue(s.requests[id])) else None
    case MappingKey(key) => if key in s.books.keys then Some(IdValue(s.books.keys[key])) else None
    case AttemptsKey(id) => if id in s.books.attempts then Some(AttemptsValue(s.books.attempts[id])) else None
    case LeaseKey(id) => if id in s.leases then Some(LeaseValue(s.leases[id])) else None
    case LeaseIndexKey(lease) => (match HolderOf(s.leases, lease) case Some(r) => Some(IdValue(r)) case None => None)
    case CheckpointKey(id, segment) => if (id, segment) in s.checkpoints
        then Some(CheckpointValue(s.checkpoints[(id, segment)])) else None
    case ResultKey(id) => if id in s.results then Some(ResultValue(s.results[id])) else None
    case CancellationKey(id) => if id in s.cancellations then Some(CancellationValue(s.cancellations[id])) else None
    case RecoveryKey(id) => if id in s.books.ownerships then Some(OwnershipValue(s.books.ownerships[id])) else None
    case CursorKey(id) => if id in s.books.cursors then Some(CursorValue(s.books.cursors[id])) else None
    case WorkerKey(worker) => if worker in s.workers then Some(WorkerValue(s.workers[worker])) else None
  }

  /** Every key but the ones still to be written holds what it should, and nothing else is stored. */
  ghost predicate RepresentsBut(kv: map<string, Value>, enc: string -> string, s: Store, dirty: set<Key>) {
    && (forall k :: k !in dirty ==> Lookup(kv, Render(enc, k)) == Expect(s, k))
    && (forall key :: key in kv ==> exists k :: Render(enc, k) == key)
  }

  ghost predicate Represents(kv: map<string, Value>, enc: string -> string, s: Store) {
    RepresentsBut(kv, enc, s, {})
  }

  /** A new abstract state leaves to be written exactly the keys where it expects something else. */
  lemma ChangesBut(kv: map<string, Value>, enc: string -> string, s: Store, t: Store, dirty: set<Key>)
    requires Represents(kv, enc, s)
    requires forall k :: k !in dirty ==> Expect(t, k) == Expect(s, k)
    ensures RepresentsBut(kv, enc, t, dirty)
  {}

  lemma PutCell(kv: map<string, Value>, enc: string -> string, t: Store, dirty: set<Key>, k0: Key, v: Value)
    requires EncoderOk(enc) && RepresentsBut(kv, enc, t, dirty) && Expect(t, k0) == Some(v)
    ensures RepresentsBut(kv[Render(enc, k0) := v], enc, t, dirty - {k0})
  {
    hide Expect, Render, EncoderOk;
    forall k | k !in dirty - {k0} ensures Lookup(kv[Render(enc, k0) := v], Render(enc, k)) == Expect(t, k) {
      if Render(enc, k) == Render(enc, k0) {
        RenderIsInjective(enc, k, k0);
      }
    }
  }

  lemma DeleteCell(kv: map<string, Value>, enc: string -> string, t: Store, dirty: set<Key>, k0: Key)
    requires EncoderOk(enc) && RepresentsBut(kv, enc, t, dirty) && Expect(t, k0) == None
    ensures RepresentsBut(kv - {Render(enc, k0)}, enc, t, dirty - {k0})
  {
    hide Expect, Render, EncoderOk;
    forall k | k !in dirty - {k0} ensures Lookup(kv - {Render(enc, k0)}, Render(enc, k)) == Expect(t, k) {
      if Render(enc, k) == Render(enc, k0) {
        RenderIsInjective(enc, k, k0);
      }
    }
  }

  /** One record changes, and one key is written for it. */
  lemma PutOne(kv: map<string, Value>, enc: string -> string, s: Store, t: Store, k0: Key, v: Value)
    requires EncoderOk(enc) && Represents(kv, enc, s)
    requires Expect(t, k0) == Some(v)
    requires forall k :: k != k0 ==> Expect(t, k) == Expect(s, k)
    ensures Represents(kv[Render(enc, k0) := v], enc, t)
  {
    hide Expect, Render, EncoderOk;
    ChangesBut(kv, enc, s, t, {k0});
    PutCell(kv, enc, t, {k0}, k0, v);
    assert {k0} - {k0} == {};
  }

  lemma DeleteOne(kv: map<string, Value>, enc: string -> string, s: Store, t: Store, k0: Key)
    requires EncoderOk(enc) && Represents(kv, enc, s)
    requires Expect(t, k0) == None
    requires forall k :: k != k0 ==> Expect(t, k) == Expect(s, k)
    ensures Represents(kv - {Render(enc, k0)}, enc, t)
  {
    hide Expect, Render, EncoderOk;
    ChangesBut(kv, enc, s, t, {k0});
    DeleteCell(kv, enc, t, {k0}, k0);
    assert {k0} - {k0} == {};
  }

  lemma SameHolder(m: map<RequestId, Lease>, n: map<RequestId, Lease>, l: LeaseId)
    requires UniqueLeaseIds(m) && UniqueLeaseIds(n)
    requires forall r :: (r in m && m[r].leaseId == l) <==> (r in n && n[r].leaseId == l)
    ensures HolderOf(m, l) == HolderOf(n, l)
  {}

  /** Who holds a lease identifier once a lease is put. */
  lemma HolderAfterPut(m: map<RequestId, Lease>, lease: Lease, l: LeaseId)
    requires UniqueLeaseIds(m) && NotElsewhere(m, lease)
    ensures var n := m[lease.requestId := lease];
            && UniqueLeaseIds(n)
            && HolderOf(n, l) == if l == lease.leaseId then Some(lease.requestId)
                                 else if lease.requestId in m && m[lease.requestId].leaseId == l then None
                                 else HolderOf(m, l)
  {
    var n := m[lease.requestId := lease];
    if l == lease.leaseId {
      HolderIs(n, lease.requestId);
    } else if !(lease.requestId in m && m[lease.requestId].leaseId == l) {
      SameHolder(m, n, l);
    }
  }

  lemma HolderAfterDelete(m: map<RequestId, Lease>, r: RequestId, l: LeaseId)
    requires UniqueLeaseIds(m) && r in m
    ensures var n := m - {r};
            && UniqueLeaseIds(n)
            && HolderOf(n, l) == if l == m[r].leaseId then None else HolderOf(m, l)
  {
    if l != m[r].leaseId {
      SameHolder(m, m - {r}, l);
    }
  }

  /** The index entry a new lease replaces. */
  function StaleIndex(m: map<RequestId, Lease>, lease: Lease): set<Key> {
    if lease.requestId in m && m[lease.requestId].leaseId != lease.leaseId
    then {LeaseIndexKey(m[lease.requestId].leaseId)} else {}
  }

  lemma LeaseKeysOnly(s: Store, leases: map<RequestId, Lease>, k: Key)
    requires !k.LeaseKey? && !k.LeaseIndexKey?
    ensures Expect(s.(leases := leases), k) == Expect(s, k)
  {}

  lemma LeasePutTouches(s: Store, lease: Lease, k: Key)
    requires UniqueLeaseIds(s.leases) && NotElsewhere(s.leases, lease)
    ensures var t := s.(leases := s.leases[lease.requestId := lease]);
            && (k !in StaleIndex(s.leases, lease) + {LeaseKey(lease.requestId), LeaseIndexKey(lease.leaseId)} ==>
                  Expect(t, k) == Expect(s, k))
            && (k in StaleIndex(s.leases, lease) ==> Expect(t, k) == None)
            && (k == LeaseIndexKey(lease.leaseId) ==> Expect(t, k) == Some(IdValue(lease.requestId)))
            && (k == LeaseKey(lease.requestId) ==> Expect(t, k) == Some(LeaseValue(lease)))
  {
    if k.LeaseIndexKey? {
      HolderAfterPut(s.leases, lease, k.lease);
    } else if !k.LeaseKey? {
      LeaseKeysOnly(s, s.leases[lease.requestId := lease], k);
    }
  }

  lemma LeaseDeleteTouches(s: Store, r: RequestId, k: Key)
    requires UniqueLeaseIds(s.leases) && r in s.leases
    ensures var t := s.(leases := s.leases - {r});
            && (k !in {LeaseKey(r), LeaseIndexKey(s.leases[r].leaseId)} ==> Expect(t, k) == Expect(s, k))
            && (k == LeaseKey(r) || k == LeaseIndexKey(s.leases[r].leaseId) ==> Expect(t, k) == None)
  {
    if k.LeaseIndexKey? {
      HolderAfterDelete(s.leases, r, k.lease);
    } else if !k.LeaseKey? {
      LeaseKeysOnly(s, s.leases - {r}, k);
    }
  }

  // --- Listings by prefix ---

  /** The stored keys with a prefix, each once. */
  ghost predicate Listed(kv: map<string, Value>, prefix: string, keys: seq<string>) {
    && (forall key :: key in keys <==> key in kv && prefix <= key)
    && (forall i, j :: 0 <= i < j < |keys| ==> keys[i] != keys[j])
  }

  /** The records `m` are exactly what the keys with the prefix hold. */
  ghost predicate Holds<K(!new), V(!new)>(enc: string -> string, s: Store, prefix: string, m: map<K, V>, key: K -> Key,
                                          wrap: V -> Value)
  {
    && (forall k :: prefix <= Render(enc, k) && Expect(s, k).Some? ==> exists x :: x in m && key(x) == k)
    && (forall x :: x in m ==> prefix <= Render(enc, key(x)) && Expect(s, key(x)) == Some(wrap(m[x])))
    && (forall x, y :: x in m && y in m && key(x) == key(y) ==> x == y)
    && (forall v, w :: wrap(v) == wrap(w) ==> v == w)
  }

  lemma KeyOf<K(!new), V(!new)>(kv: map<string, Value>, enc: string -> string, s: Store, prefix: string, m: map<K, V>,
                               key: K -> Key, wrap: V -> Value, name: string) returns (x: K)
    requires Represents(kv, enc, s) && Holds(enc, s, prefix, m, key, wrap)
    requires name in kv && prefix <= name
    ensures x in m && Render(enc, key(x)) == name && kv[name] == wrap(m[x])
  {
    var k :| Render(enc, k) == name;
    assert Lookup(kv, Render(enc, k)) == Expect(s, k);
    x :| x in m && key(x) == k;
  }

  /** The values listed under a prefix are the records it holds, each as often. */
  lemma ListingIsExact<K(!new), V(!new)>(kv: map<string, Value>, enc: string -> string, s: Store, prefix: string,
                                        m: map<K, V>, key: K -> Key, wrap: V -> Value, keys: seq<string>, list: seq<V>)
    requires EncoderOk(enc) && Represents(kv, enc, s) && Holds(enc, s, prefix, m, key, wrap) && Listed(kv, prefix, keys)
    requires |list| == |keys| && forall i :: 0 <= i < |keys| ==> keys[i] in kv && kv[keys[i]] == wrap(list[i])
    ensures multiset(list) == Values(m)
  {
    var xs := Named(kv, enc, s, prefix, m, key, wrap, keys, list);
    forall x ensures x in xs <==> x in m {
      if x in m {
        assert Lookup(kv, Render(enc, key(x))) == Expect(s, key(x));
        assert Render(enc, key(x)) in keys;
        var i :| 0 <= i < |keys| && keys[i] == Render(enc, key(x));
        RenderIsInjective(enc, key(xs[i]), key(x));
      }
    }
    ParallelIsListing(xs, list, m);
  }

  lemma {:induction false} Named<K(!new), V(!new)>(kv: map<string, Value>, enc: string -> string, s: Store,
                                                   prefix: string, m: map<K, V>,
                                key: K -> Key, wrap: V -> Value, keys: seq<string>, list: seq<V>) returns (xs: seq<K>)
    requires Represents(kv, enc, s) && Holds(enc, s, prefix, m, key, wrap)
    requires forall i :: 0 <= i < |keys| ==> keys[i] in kv && prefix <= keys[i]
    requires forall i, j :: 0 <= i < j < |keys| ==> keys[i] != keys[j]
    requires |list| == |keys| && forall i :: 0 <= i < |keys| ==> kv[keys[i]] == wrap(list[i])
    ensures |xs| == |keys|
    ensures forall i :: 0 <= i < |keys| ==> xs[i] in m && Render(enc, key(xs[i])) == keys[i] && m[xs[i]] == list[i]
    ensures forall i, j :: 0 <= i < j < |xs| ==> xs[i] != xs[j]
    decreases |keys|
  {
    hide Represents, Render;
    if keys == [] {
      xs := [];
    } else {
      var n := |keys| - 1;
      var front := Named(kv, enc, s, prefix, m, key, wrap, keys[..n], list[..n]);
      var x := KeyOf(kv, enc, s, prefix, m, key, wrap, keys[n]);
      xs := front + [x];
    }
  }

  /** Everything under the prefix is a record of its kind. */
  lemma AllWrapped<K(!new), V(!new)>(kv: map<string, Value>, enc: string -> string, s: Store, prefix: string,
                                    m: map<K, V>, key: K -> Key, wrap: V -> Value)
    requires Represents(kv, enc, s) && Holds(enc, s, prefix, m, key, wrap)
    ensures forall name :: name in kv && prefix <= name ==> exists x :: x in m && kv[name] == wrap(m[x])
  {
    forall name | name in kv && prefix <= name ensures exists x :: x in m && kv[name] == wrap(m[x]) {
      var x := KeyOf(kv, enc, s, prefix, m, key, wrap, name);
    }
  }

  lemma HoldsRequests(enc: string -> string, s: Store, key: RequestId -> Key, wrap: Request -> Value)
    requires (forall id :: key(id) == RequestKey(id)) && (forall v :: wrap(v) == RequestValue(v))
    ensures Holds(enc, s, "request:", s.requests, key, wrap)
  {
    hide Render;
    forall k ensures "request:" <= Render(enc, k) <==> k.RequestKey? {
      KindPrefixIsExact(enc, RequestKey(""), k);
    }
    assert forall k: Key :: k.RequestKey? && Expect(s, k).Some? ==> k.id in s.requests && key(k.id) == k;
  }

  lemma HoldsWorkers(enc: string -> string, s: Store, key: WorkerId -> Key, wrap: Worker -> Value)
    requires (forall id :: key(id) == WorkerKey(id)) && (forall v :: wrap(v) == WorkerValue(v))
    ensures Holds(enc, s, "worker:", s.workers, key, wrap)
  {
    hide Render;
    forall k ensures "worker:" <= Render(enc, k) <==> k.WorkerKey? {
      KindPrefixIsExact(enc, WorkerKey(""), k);
    }
    assert forall k: Key :: k.WorkerKey? && Expect(s, k).Some? ==> k.worker in s.workers && key(k.worker) == k;
  }

  lemma HoldsLeases(enc: string -> string, s: Store, key: RequestId -> Key, wrap: Lease -> Value)
    requires (forall id :: key(id) == LeaseKey(id)) && (forall v :: wrap(v) == LeaseValue(v))
    ensures Holds(enc, s, "lease:", s.leases, key, wrap)
  {
    hide Render;
    forall k ensures "lease:" <= Render(enc, k) <==> k.LeaseKey? {
      KindPrefixIsExact(enc, LeaseKey(""), k);
    }
    assert forall k: Key :: k.LeaseKey? && Expect(s, k).Some? ==> k.id in s.leases && key(k.id) == k;
  }

  lemma HoldsCheckpoints(enc: string -> string, s: Store, key: ((RequestId, nat)) -> Key, wrap: Checkpoint -> Value)
    requires (forall x: (RequestId, nat) :: key(x) == CheckpointKey(x.0, x.1))
             && (forall v :: wrap(v) == CheckpointValue(v))
    ensures Holds(enc, s, "checkpoint:", s.checkpoints, key, wrap)
  {
    hide Render;
    forall k ensures "checkpoint:" <= Render(enc, k) <==> k.CheckpointKey? {
      KindPrefixIsExact(enc, CheckpointKey("", 0), k);
    }
    assert forall k: Key :: k.CheckpointKey? && Expect(s, k).Some? ==>
      (k.id, k.segment) in s.checkpoints && key((k.id, k.segment)) == k;
  }

  lemma HoldsOwn(enc: string -> string, s: Store, id: RequestId, key: ((RequestId, nat)) -> Key,
                 wrap: Checkpoint -> Value)
    requires EncoderOk(enc) && forall k :: k in s.checkpoints ==> s.checkpoints[k].requestId == k.0
    requires (forall x: (RequestId, nat) :: key(x) == CheckpointKey(x.0, x.1))
             && (forall v :: wrap(v) == CheckpointValue(v))
    ensures Holds(enc, s, CheckpointPrefix(enc, id), OwnedBy(s.checkpoints, id), key, wrap)
  {
    hide Render, CheckpointPrefix, EncoderOk, Expect;
    forall k ensures CheckpointPrefix(enc, id) <= Render(enc, k) <==> k.CheckpointKey? && k.id == id {
      CheckpointPrefixIsExact(enc, id, k);
    }
    forall k: Key | k.CheckpointKey? {
      SlotExpected(s, k);
    }
  }

  lemma SlotExpected(s: Store, k: Key)
    requires k.CheckpointKey?
    ensures Expect(s, k) == if (k.id, k.segment) in s.checkpoints
                            then Some(CheckpointValue(s.checkpoints[(k.id, k.segment)])) else None
  {}

  /** The expired values under the checkpoint prefix are the expired checkpoints. */
  lemma ExpiredTally(kv: map<string, Value>, enc: string -> string, s: Store, now: nat,
                     dropped: map<string, Checkpoint>)
    requires EncoderOk(enc) && Represents(kv, enc, s)
    requires forall name :: name in dropped <==> name in kv && "checkpoint:" <= name && kv[name].CheckpointValue?
                                                 && now >= kv[name].checkpoint.createdAt + kv[name].checkpoint.ttlMs
    requires forall name :: name in dropped ==> dropped[name] == kv[name].checkpoint
    ensures Values(dropped) == Values(PastTtl(s.checkpoints, now))
  {
    hide Render, Represents, EncoderOk;
    var key := (x: (RequestId, nat)) => CheckpointKey(x.0, x.1);
    var wrap := (c: Checkpoint) => CheckpointValue(c);
    HoldsCheckpoints(enc, s, key, wrap);
    var name := (x: (RequestId, nat)) => Render(enc, CheckpointKey(x.0, x.1));
    forall x | x in PastTtl(s.checkpoints, now) ensures name(x) in dropped && dropped[name(x)] == s.checkpoints[x] {
      Looked(kv, enc, s, key(x));
    }
    forall l | l in dropped ensures exists x :: x in PastTtl(s.checkpoints, now) && name(x) == l {
      var x := KeyOf(kv, enc, s, "checkpoint:", s.checkpoints, key, wrap, l);
      assert x in PastTtl(s.checkpoints, now) && name(x) == l;
    }
    forall x, y | x in PastTtl(s.checkpoints, now) && y in PastTtl(s.checkpoints, now)
        && name(x) == name(y) ensures x == y {
      RenderIsInjective(enc, key(x), key(y));
    }
    ValuesRenamed(PastTtl(s.checkpoints, now), dropped, name);
  }

  lemma Looked(kv: map<string, Value>, enc: string -> string, s: Store, k: Key)
    requires Represents(kv, enc, s)
    ensures Lookup(kv, Render(enc, k)) == Expect(s, k)
  {}
}
