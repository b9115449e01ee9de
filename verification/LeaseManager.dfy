/** The lease manager and the writes it issues. */
module LeaseManagers {
  import opened Options
  import opened DurableTypes
  import opened Store
  import opened Steps
  import opened InMemoryRepositories
  import opened Tallies

  /** These writes happened, in this order, and nothing else. */
  twostate predicate Wrote(repo: InMemoryRepository, ops: seq<Op>)
    reads repo
  {
    repo.Valid() && repo.log == old(repo.log) + ops
  }

  lemma Accounted(repo: InMemoryRepository)
    requires repo.Valid()
    ensures repo.Model() == Replay(Empty, repo.log)
  {}

  /** The log determines the records, so writes known by the log are known by their effect. */
  lemma LogDetermines(repo: InMemoryRepository, s: Store, l: seq<Op>, ops: seq<Op>)
    requires repo.Valid() && s == Replay(Empty, l) && repo.log == l + ops
    ensures repo.Model() == Replay(s, ops)
  {
    ReplayAppend(Empty, l, ops);
  }

  lemma ListedLeases(m: map<RequestId, Lease>, list: seq<Lease>)
    requires multiset(list) == Values(m)
    ensures forall l :: l in list <==> exists r :: r in m && m[r] == l
  {
    forall l ensures l in list <==> exists r :: r in m && m[r] == l {
      assert l in list <==> l in multiset(list);
      ValuesHold(m, l);
    }
  }

  class LeaseManager {
    const store: InMemoryRepository

    constructor (store: InMemoryRepository)
      ensures this.store == store
    {
      this.store := store;
    }

    method SetActive(lease: Lease)
      requires store.Valid() && NotElsewhere(store.activeLeases, lease)
      modifies store`activeLeases, store`log
      ensures Wrote(store, [Leases(PutLease(lease))])
    {
      store.PutLease(lease);
    }

    /** Reclaim the lease of a request, whoever holds it. */
    method ReclaimByRequest(id: RequestId)
      requires store.Valid()
      modifies store`activeLeases, store`log
      ensures Wrote(store, Reclaim(old(store.Model()), id))
    {
      if id in store.activeLeases {
        store.DeleteLease(store.activeLeases[id].leaseId);
      }
    }

    /** The first field in which an identity differs from the live lease. */
    method MatchIdentity(id: Identity, now: nat) returns (mismatch: Option<Mismatch>)
      requires store.Valid()
      ensures mismatch == Match(store.Model(), id, now)
    {
      if id.requestId !in store.activeLeases { return Some(NoActiveLease); }
      var lease := store.activeLeases[id.requestId];
      if now > lease.expiresAt { return Some(PastExpiry); }
      if id.attemptId != lease.attemptId { return Some(OtherAttempt); }
      if id.leaseId != lease.leaseId { return Some(OtherLease); }
      if id.workerId != lease.workerId { return Some(OtherWorker); }
      if id.generation != lease.generation { return Some(OtherGeneration); }
      if id.segment != lease.segment { return Some(OtherSegment); }
      return None;
    }

    /** Compare and delete: only an identity that still owns the lease gives it back. */
    method ReclaimExact(id: Identity, now: nat) returns (mismatch: Option<Mismatch>)
      requires store.Valid()
      modifies store`activeLeases, store`log
      ensures mismatch == Match(old(store.Model()), id, now)
      ensures Wrote(store, if mismatch.None? then [Leases(DeleteLease(id.leaseId))] else [])
    {
      mismatch := MatchIdentity(id, now);
      if mismatch.None? {
        store.DeleteLease(id.leaseId);
      }
    }

    /** Reclaim every lease of one worker generation, as listed when the loop starts. */
    method ReclaimByWorkerGeneration(worker: WorkerId, generation: Generation) returns (ghost ids: seq<LeaseId>)
      requires store.Valid()
      modifies store`activeLeases, store`log
      ensures Lists(old(store.Model()), worker, generation, ids)
      ensures Wrote(store, DeleteLeases(ids))
    {
      hide InMemoryRepository.Valid, Apply, Lists, Values;
      ghost var s := store.Model();
      var list := store.ListActiveLeases();
      ids := [];
      for i := 0 to |list|
        invariant Wrote(store, DeleteLeases(ids))
        invariant forall x :: x in ids <==> HeldBefore(list, i, worker, generation, x)
      {
        if list[i].workerId == worker && list[i].generation == generation {
          store.DeleteLease(list[i].leaseId);
          DeleteLeasesSnoc(ids, list[i].leaseId);
          ids := ids + [list[i].leaseId];
        }
      }
      AllHeld(s, list, worker, generation, ids);
    }
  }

  /** A lease of this generation is among the first ones listed. */
  predicate HeldBefore(list: seq<Lease>, i: nat, worker: WorkerId, generation: Generation, x: LeaseId)
    requires i <= |list|
  {
    exists k :: 0 <= k < i && list[k].leaseId == x && list[k].workerId == worker && list[k].generation == generation
  }

  /** Picking from every lease once finds the generation's leases and no others. */
  lemma AllHeld(s: Store, list: seq<Lease>, worker: WorkerId, generation: Generation, ids: seq<LeaseId>)
    requires multiset(list) == Values(s.leases)
    requires forall x :: x in ids <==> HeldBefore(list, |list|, worker, generation, x)
    ensures Lists(s, worker, generation, ids)
  {
    ListedLeases(s.leases, list);
    forall x ensures x in ids <==> HoldsLease(s, worker, generation, x) {
      if HoldsLease(s, worker, generation, x) {
        var r :| r in s.leases && s.leases[r].leaseId == x
                 && s.leases[r].workerId == worker && s.leases[r].generation == generation;
        assert s.leases[r] in list;
      }
      if x in ids {
        var k :| 0 <= k < |list| && list[k].leaseId == x
                 && list[k].workerId == worker && list[k].generation == generation;
        assert list[k] in list;
      }
    }
  }

  lemma {:induction false} DeleteLeasesSnoc(ids: seq<LeaseId>, last: LeaseId)
    ensures DeleteLeases(ids + [last]) == DeleteLeases(ids) + [Leases(DeleteLease(last))]
  {
    if ids == [] {
      assert ids + [last] == [last];
    } else {
      assert (ids + [last])[1..] == ids[1..] + [last];
      DeleteLeasesSnoc(ids[1..], last);
    }
  }
}
