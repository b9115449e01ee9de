/** Where the shared stretches of writes lead, seen as a whole. */
module Effects {
  import opened RequestStages
  import opened DurableTypes
  import opened Store
  import opened Steps

  lemma ReplayLead(s: Store, op: Op, rest: seq<Op>)
    ensures Replay(s, [op] + rest) == Replay(Apply(s, op), rest)
  {
    assert ([op] + rest)[1..] == rest;
  }

  lemma ReplaySingle(s: Store, op: Op)
    ensures Replay(s, [op]) == Apply(s, op)
  {
    assert [op] + [] == [op];
    ReplayLead(s, op, []);
  }

  lemma ReplayTwo(s: Store, a: Op, b: Op)
    ensures Replay(s, [a, b]) == Apply(Apply(s, a), b)
  {
    hide Apply;
    assert [a, b] == [a] + [b];
    ReplayLead(s, a, [b]);
    ReplaySingle(Apply(s, a), b);
  }

  lemma ReplayFour(s: Store, a: Op, b: Op, c: Op, d: Op)
    ensures Replay(s, [a, b, c, d]) == Apply(Apply(Apply(Apply(s, a), b), c), d)
  {
    hide Apply;
    assert [a, b, c, d] == [a] + ([b] + ([c] + [d]));
    ReplayLead(s, a, [b] + ([c] + [d]));
    ReplayLead(Apply(s, a), b, [c] + [d]);
    ReplayLead(Apply(Apply(s, a), b), c, [d]);
    ReplaySingle(Apply(Apply(Apply(s, a), b), c), d);
  }

  ghost predicate Within<K, V>(m: map<K, V>, n: map<K, V>) {
    forall k :: k in m ==> k in n && m[k] == n[k]
  }

  /** Only this one request record may differ, and not in what it was created with. */
  ghost predicate OnlyRequest(s: Store, t: Store, id: RequestId) {
    && id in s.requests && id in t.requests
    && t.requests == s.requests[id := t.requests[id]]
    && t.requests[id].totalSegments == s.requests[id].totalSegments
    && t.requests[id].retryCount == s.requests[id].retryCount
  }

  /** A request closed for good: its lease and checkpoints are gone, the rest is untouched. */
  ghost predicate Closed(s: Store, t: Store, id: RequestId, stage: Stage) {
    && OnlyRequest(s, t, id)
    && t.requests[id].stage == stage
    && id !in t.leases
    && Within(t.leases, s.leases)
    && (forall k :: k in t.checkpoints ==> k.0 != id)
    && Within(t.checkpoints, s.checkpoints)
    && t.results == s.results
    && t.cancellations == s.cancellations
    && t.workers == s.workers
    && t.books == s.books
  }

  lemma ReclaimEffect(s: Store, id: RequestId)
    ensures var t := Replay(s, Reclaim(s, id));
            && t == s.(leases := t.leases)
            && id !in t.leases
            && Within(t.leases, s.leases)
  {
    if id in s.leases {
      ReplaySingle(s, Leases(DeleteLease(s.leases[id].leaseId)));
    }
  }

  lemma MoveEffect(s: Store, id: RequestId, stage: Stage, code: ErrorCode)
    requires id in s.requests
    ensures var t := Replay(s,
                            [Requests(Transition(id, s.requests[id].stage, stage))]
                                + SetErrorIfFailed(id, stage, code));
            && t == s.(requests := t.requests)
            && OnlyRequest(s, t, id)
            && t.requests[id].stage == stage
  {
    var move := Requests(Transition(id, s.requests[id].stage, stage));
    ReplayLead(s, move, SetErrorIfFailed(id, stage, code));
    if stage == Failed {
      ReplaySingle(Apply(s, move), Requests(SetError(id, code)));
    }
  }

  lemma CloseEffect(s: Store, id: RequestId, stage: Stage, code: ErrorCode)
    requires id in s.requests && !Terminal(s.requests[id].stage) && Legal(s.requests[id].stage, stage)
    ensures Closed(s, Replay(s, Finalize(s, id, stage, code)), id, stage)
  {
    var move := [Requests(Transition(id, s.requests[id].stage, stage))] + SetErrorIfFailed(id, stage, code);
    var drop := Checkpoints(DeleteCheckpoints(id));
    var t := Replay(s, move);
    MoveEffect(s, id, stage, code);
    var u := Apply(t, drop);
    assert Reclaim(u, id) == Reclaim(s, id);
    ReclaimEffect(u, id);
    ReplayLead(t, drop, Reclaim(s, id));
    ReplayAppend(s, move, [drop] + Reclaim(s, id));
    assert Finalize(s, id, stage, code) == move + ([drop] + Reclaim(s, id));
  }

  /** Finalising either changes nothing or closes the request. */
  lemma FinalizeEffect(s: Store, id: RequestId, stage: Stage, code: ErrorCode)
    ensures var t := Replay(s, Finalize(s, id, stage, code));
            t == s || (id in s.requests && !Terminal(s.requests[id].stage) && Closed(s, t, id, stage))
    ensures id in s.requests && !Terminal(s.requests[id].stage) && s.requests[id].stage != Accepted
            && (stage == Failed || stage == Cancelled)
            ==> Closed(s, Replay(s, Finalize(s, id, stage, code)), id, stage)
  {
    if id in s.requests && !Terminal(s.requests[id].stage) && Legal(s.requests[id].stage, stage) {
      CloseEffect(s, id, stage, code);
    }
  }

  /** Deleting listed leases leaves exactly the others. */
  lemma {:induction false} DeleteLeasesEffect(s: Store, ids: seq<LeaseId>)
    ensures var t := Replay(s, DeleteLeases(ids));
            && t == s.(leases := t.leases)
            && Within(t.leases, s.leases)
            && forall r :: r in s.leases ==> (r in t.leases <==> s.leases[r].leaseId !in ids)
    decreases |ids|
  {
    if ids == [] {
      assert Replay(s, []) == s;
    } else {
      var first := Leases(DeleteLease(ids[0]));
      ReplayLead(s, first, DeleteLeases(ids[1..]));
      DeleteLeasesEffect(Apply(s, first), ids[1..]);
      assert forall x :: x in ids <==> x == ids[0] || x in ids[1..];
    }
  }

  /** Revoking the stored generation removes the worker and nothing else. */
  lemma RevokeEffect(s: Store, x: WorkerId, g: Generation)
    ensures Replay(s, RevokeWorker(s, x, g))
         == if ViewIsCurrent(s, x, g) then s.(workers := s.workers - {x}) else s
  {
    if ViewIsCurrent(s, x, g) {
      var mark, drop := Workers(SetWorkerStage(x, g, Revoked)), Workers(DeleteWorker(x));
      ReplayLead(s, mark, [drop]);
      ReplaySingle(Apply(s, mark), drop);
      assert [mark] + [drop] == [mark, drop];
      assert Apply(Apply(s, mark), drop).workers == s.workers - {x};
    }
  }
}
