/** What disciplined writes never take back. */
module Progress {
  import opened RequestStages
  import opened DurableTypes
  import opened Store
  import opened Discipline

  /** Requests stay, keep what they were created with, and keep a terminal stage. */
  predicate RecordAdvances(a: Request, b: Request) {
    && b.totalSegments == a.totalSegments
    && b.manifestDigest == a.manifestDigest
    && b.createdAt == a.createdAt
    && b.timeoutMs == a.timeoutMs
    && a.retryCount <= b.retryCount
    && (Terminal(a.stage) ==> b.stage == a.stage)
    && (a.stage != Accepted ==> b.stage != Accepted)
  }

  ghost predicate RequestsAdvance(s: Store, t: Store) {
    forall r :: r in s.requests ==> r in t.requests && RecordAdvances(s.requests[r], t.requests[r])
  }

  ghost predicate ResultsAdvance(s: Store, t: Store) {
    forall r :: r in s.results ==> r in t.results && t.results[r] == s.results[r]
  }

  ghost predicate CancellationsAdvance(s: Store, t: Store) {
    forall r :: r in s.cancellations ==>
      && r in t.cancellations
      && t.cancellations[r].requestedAt == s.cancellations[r].requestedAt
      && (s.cancellations[r].acknowledgedAt.Some? ==> t.cancellations[r] == s.cancellations[r])
  }

  ghost predicate Active(s: Store, lease: LeaseId) {
    exists r :: r in s.leases && s.leases[r].leaseId == lease
  }

  /** A lease identifier is used once: reclaimed, it is never active again. */
  ghost predicate LeasesAdvance(v: World, w: World) {
    forall i :: i in v.past.issued ==>
      && i in w.past.issued
      && w.past.issued[i] == v.past.issued[i]
      && (!Active(v.store, i) ==> !Active(w.store, i))
  }

  ghost predicate Current(s: Store, g: Generation) {
    exists w :: w in s.workers && s.workers[w].generation == g
  }

  /** A worker generation belongs to one worker, and once gone it is gone for good. */
  ghost predicate GenerationsAdvance(v: World, w: World) {
    forall g :: g in v.past.registered ==>
      && g in w.past.registered
      && w.past.registered[g] == v.past.registered[g]
      && (!Current(v.store, g) ==> !Current(w.store, g))
  }

  ghost predicate Advances(v: World, w: World) {
    && RequestsAdvance(v.store, w.store)
    && ResultsAdvance(v.store, w.store)
    && CancellationsAdvance(v.store, w.store)
    && LeasesAdvance(v, w)
    && GenerationsAdvance(v, w)
  }

  /** The one record a write to the request state may replace. */
  predicate ReplacesAtMostOne(s: Store, t: Store, id: RequestId) {
    t.requests == s.requests
    || (id in s.requests && id in t.requests && t.requests == s.requests[id := t.requests[id]]
        && RecordAdvances(s.requests[id], t.requests[id]))
    || (id !in s.requests && id in t.requests && t.requests == s.requests[id := t.requests[id]])
  }

  lemma MovesReplaceOne(w: World, op: Op)
    requires Safe(w, op) && Moves(w.store, op).Some?
    ensures ReplacesAtMostOne(w.store, Apply(w.store, op), Moves(w.store, op).value.0)
  {
    MovesAreEdges(w, op);
  }

  lemma StaysReplaceOne(w: World, op: Op) returns (id: RequestId)
    requires Safe(w, op) && Moves(w.store, op).None?
    ensures ReplacesAtMostOne(w.store, Apply(w.store, op), id)
  {
    id := if !op.Requests? then "" else if op.request.CreateRequest? then op.request.record.id else op.request.id;
  }

  lemma RequestsAdvanceOne(w: World, op: Op)
    requires Safe(w, op)
    ensures RequestsAdvance(w.store, Apply(w.store, op))
  {
    if Moves(w.store, op).Some? {
      MovesReplaceOne(w, op);
    } else {
      var id := StaysReplaceOne(w, op);
    }
  }

  lemma ResultsAdvanceOne(w: World, op: Op)
    requires Safe(w, op)
    ensures ResultsAdvance(w.store, Apply(w.store, op))
  {}

  lemma CancellationsAdvanceOne(w: World, op: Op)
    requires Safe(w, op)
    ensures CancellationsAdvance(w.store, Apply(w.store, op))
  {}

  lemma LeasesAdvanceOne(w: World, op: Op)
    requires Safe(w, op)
    ensures LeasesAdvance(w, Do(w, op))
  {
    var t := Apply(w.store, op);
    forall i | i in w.past.issued && Active(t, i)
      ensures Active(w.store, i)
    {
      var r :| r in t.leases && t.leases[r].leaseId == i;
      assert r in w.store.leases && w.store.leases[r].leaseId == i;
    }
  }

  lemma GenerationsAdvanceOne(w: World, op: Op)
    requires Safe(w, op) && GenerationsAreOwned(w) && WorkersKeyed(w.store)
    ensures GenerationsAdvance(w, Do(w, op))
  {
    var t := Apply(w.store, op);
    forall g | g in w.past.registered && Current(t, g)
      ensures Current(w.store, g)
    {
      var x :| x in t.workers && t.workers[x].generation == g;
      assert x in w.store.workers && w.store.workers[x].generation == g;
    }
  }

  lemma AdvancesOne(w: World, op: Op)
    requires Consistent(w) && Safe(w, op)
    ensures Advances(w, Do(w, op))
  {
    RequestsAdvanceOne(w, op);
    ResultsAdvanceOne(w, op);
    CancellationsAdvanceOne(w, op);
    LeasesAdvanceOne(w, op);
    GenerationsAdvanceOne(w, op);
  }

  lemma AdvancesTransitive(u: World, v: World, w: World)
    requires Advances(u, v) && Advances(v, w)
    ensures Advances(u, w)
  {}

  /** Whatever a run has established, every longer run still shows. */
  lemma {:induction false} RunsAdvance(w: World, ops: seq<Op>)
    requires Consistent(w) && SafeAll(w, ops)
    ensures Advances(w, DoAll(w, ops))
    decreases |ops|
  {
    if ops != [] {
      AdvancesOne(w, ops[0]);
      KeepsConsistent(w, ops[0]);
      RunsAdvance(Do(w, ops[0]), ops[1..]);
      AdvancesTransitive(w, Do(w, ops[0]), DoAll(Do(w, ops[0]), ops[1..]));
    }
  }
}
