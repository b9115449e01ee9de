/**
 * Changes of the store told by the records themselves: which fields of which
 * record have which value afterwards. The shared lists of writes of `Steps`
 * are proved to make exactly these changes.
 */
module StoreChanges {
  import opened Options
  import opened RequestStages
  import opened DurableTypes
  import opened Store
  import opened Steps
  import opened Effects

  /** The first attempt in the list with this identifier. */
  predicate FirstWith(list: seq<Attempt>, i: nat, attemptId: AttemptId) {
    i < |list| && list[i].attemptId == attemptId && forall j :: 0 <= j < i ==> list[j].attemptId != attemptId
  }

  /** That attempt has ended, and if with an error, with this one; every other attempt is as it was. */
  function Ended(list: seq<Attempt>, attemptId: AttemptId, outcome: AttemptOutcome, error: Option<ErrorCode>)
    : seq<Attempt>
  {
    seq(|list|, i requires 0 <= i < |list| =>
          if !FirstWith(list, i, attemptId) then list[i]
          else list[i].(outcome := Some(outcome), error := if error.Some? then error else list[i].error))
  }

  /** One attempt of the request has ended. */
  function AttemptOver(s: Store, id: RequestId, attemptId: AttemptId, outcome: AttemptOutcome,
                       error: Option<ErrorCode>): Store
  {
    var list := s.books.attempts;
    if id !in list then s
    else s.(books := s.books.(attempts := list[id := Ended(list[id], attemptId, outcome, error)]))
  }

  lemma {:induction false} PatchMeets(list: seq<Attempt>, a: AttemptId, outcome: AttemptOutcome,
                                      error: Option<ErrorCode>, i: nat)
    requires i < |list|
    ensures PatchFirst(list, a, outcome, error)[i] == Ended(list, a, outcome, error)[i]
  {
    if list[0].attemptId != a && i > 0 {
      PatchMeets(list[1..], a, outcome, error, i - 1);
      assert FirstWith(list, i, a) <==> FirstWith(list[1..], i - 1, a) by {
        assert forall j :: 0 < j < i ==> list[j] == list[1..][j - 1];
        assert forall j :: 0 <= j < i - 1 ==> list[1..][j] == list[j + 1];
      }
    }
  }

  lemma UpdateEndsAttempt(s: Store, id: RequestId, attemptId: AttemptId, outcome: AttemptOutcome,
                          error: Option<ErrorCode>)
    ensures Apply(s, Bookkeeping(UpdateAttempt(id, attemptId, outcome, error)))
         == AttemptOver(s, id, attemptId, outcome, error)
  {
    if id in s.books.attempts {
      var list := s.books.attempts[id];
      forall i | 0 <= i < |list|
        ensures PatchFirst(list, attemptId, outcome, error)[i] == Ended(list, attemptId, outcome, error)[i]
      {
        PatchMeets(list, attemptId, outcome, error, i);
      }
      assert PatchFirst(list, attemptId, outcome, error) == Ended(list, attemptId, outcome, error);
    }
  }

  /** The request is given this stage for good: its lease and its checkpoints are gone, its error is recorded. */
  function Shut(s: Store, id: RequestId, stage: Stage, code: ErrorCode): Store
    requires id in s.requests
  {
    var r := s.requests[id];
    s.(requests := s.requests[id := r.(stage := stage, lastError := if stage == Failed then Some(code)
                                       else r.lastError)],
       leases := s.leases - {id},
       checkpoints := map k | k in s.checkpoints && k.0 != id && !(id + ":" <= k.0) :: s.checkpoints[k])
  }

  predicate CanBeShut(s: Store, id: RequestId) {
    id in s.requests && s.requests[id].stage in {Queued, Leased, Running, RetryWait}
  }

  /** The request has no lease any more. */
  function Unleased(s: Store, id: RequestId): Store { s.(leases := s.leases - {id}) }

  lemma ReclaimGives(s: Store, id: RequestId)
    requires UniqueLeaseIds(s.leases)
    ensures Replay(s, Reclaim(s, id)) == Unleased(s, id)
  {
    if id in s.leases {
      ReplaySingle(s, Leases(DeleteLease(s.leases[id].leaseId)));
      assert ApplyLease(s.leases, DeleteLease(s.leases[id].leaseId)) == s.leases - {id};
    } else {
      assert s.leases - {id} == s.leases;
      assert Replay(s, []) == s;
    }
  }

  /** Closing a request as failed or cancelled shuts it, unless it is unknown, terminal, or not yet queued. */
  function ShutIfOpen(s: Store, id: RequestId, stage: Stage, code: ErrorCode): Store {
    if CanBeShut(s, id) then Shut(s, id, stage, code) else s
  }

  lemma FinalizeShuts(s: Store, id: RequestId, stage: Stage, code: ErrorCode)
    requires UniqueLeaseIds(s.leases) && stage in {Failed, Cancelled}
    ensures Replay(s, Finalize(s, id, stage, code)) == ShutIfOpen(s, id, stage, code)
  {
    if CanBeShut(s, id) {
      ShutsOpen(s, id, stage, code);
    }
  }

  lemma ShutsOpen(s: Store, id: RequestId, stage: Stage, code: ErrorCode)
    requires UniqueLeaseIds(s.leases) && stage in {Failed, Cancelled} && CanBeShut(s, id)
    ensures Replay(s, Finalize(s, id, stage, code)) == Shut(s, id, stage, code)
  {
    hide Replay, Apply, UniqueLeaseIds, SetErrorIfFailed, Reclaim;
    var move := [Requests(Transition(id, s.requests[id].stage, stage))] + SetErrorIfFailed(id, stage, code);
    var drop := Checkpoints(DeleteCheckpoints(id));
    var t := MovedTo(s, id, stage, code);
    var u := DropsCheckpoints(t, id);
    ReclaimGives(u, id);
    assert Reclaim(u, id) == Reclaim(s, id) by { LikeLeases(s, u, id); }
    ReplayLead(t, drop, Reclaim(s, id));
    ReplayAppend(s, move, [drop] + Reclaim(s, id));
    assert Finalize(s, id, stage, code) == move + ([drop] + Reclaim(s, id));
  }

  lemma LikeLeases(s: Store, u: Store, id: RequestId)
    requires u.leases == s.leases
    ensures Reclaim(u, id) == Reclaim(s, id)
  {}

  lemma DropsCheckpoints(s: Store, id: RequestId) returns (t: Store)
    ensures t == Apply(s, Checkpoints(DeleteCheckpoints(id)))
    ensures t == s.(checkpoints := map k | k in s.checkpoints && k.0 != id && !(id + ":" <= k.0) :: s.checkpoints[k])
  {
    t := Apply(s, Checkpoints(DeleteCheckpoints(id)));
    assert t.checkpoints
        == map k | k in s.checkpoints && k.0 != id && !(id + ":" <= k.0) :: s.checkpoints[k];
  }

  lemma MovedTo(s: Store, id: RequestId, stage: Stage, code: ErrorCode) returns (t: Store)
    requires CanBeShut(s, id)
    ensures t == Replay(s, [Requests(Transition(id, s.requests[id].stage, stage))] + SetErrorIfFailed(id, stage, code))
    ensures var r := s.requests[id];
            t == s.(requests := s.requests[id := r.(stage := stage,
                                                    lastError := if stage == Failed then Some(code) else r.lastError)])
  {
    var move := Requests(Transition(id, s.requests[id].stage, stage));
    t := Replay(s, [move] + SetErrorIfFailed(id, stage, code));
    ReplayLead(s, move, SetErrorIfFailed(id, stage, code));
    if stage == Failed {
      ReplaySingle(Apply(s, move), Requests(SetError(id, code)));
    } else {
      assert Replay(Apply(s, move), []) == Apply(s, move);
    }
  }

  /** The worker as stored under this generation has this stage and works on this segment. */
  function Marked(s: Store, w: WorkerId, g: Generation, stage: WorkerStage, current: Option<nat>): Store {
    if w in s.workers && s.workers[w].generation == g
    then s.(workers := s.workers[w := s.workers[w].(stage := stage, currentSegment := current)]) else s
  }

  lemma MarkMarks(s: Store, w: WorkerId, g: Generation, stage: WorkerStage, current: Option<nat>)
    ensures Replay(s, Mark(s, w, g, stage, current)) == Marked(s, w, g, stage, current)
  {
    if w in s.workers && s.workers[w].generation == g {
      var first, second := Workers(SetWorkerStage(w, g, stage)), Workers(SetWorkerSegment(w, g, current));
      assert [first, second] == [first] + [second];
      ReplayLead(s, first, [second]);
      ReplaySingle(Apply(s, first), second);
    } else {
      assert Replay(s, []) == s;
    }
  }

  /** The generation is out: its worker is forgotten and no lease names it. */
  function CastOut(s: Store, w: WorkerId, g: Generation): Store {
    s.(workers := if w in s.workers && s.workers[w].generation == g then s.workers - {w} else s.workers,
       leases := map r | r in s.leases && !(s.leases[r].workerId == w && s.leases[r].generation == g) :: s.leases[r])
  }

  lemma RevokeThenReclaim(s: Store, w: WorkerId, g: Generation, ids: seq<LeaseId>)
    requires UniqueLeaseIds(s.leases) && Lists(s, w, g, ids)
    ensures Replay(s, RevokeWorker(s, w, g) + DeleteLeases(ids)) == CastOut(s, w, g)
  {
    RevokeEffect(s, w, g);
    var t := Replay(s, RevokeWorker(s, w, g));
    ReplayAppend(s, RevokeWorker(s, w, g), DeleteLeases(ids));
    LeavesOthers(t, s, w, g, ids);
  }

  lemma LeavesOthers(t: Store, s: Store, w: WorkerId, g: Generation, ids: seq<LeaseId>)
    requires UniqueLeaseIds(s.leases) && Lists(s, w, g, ids) && t.leases == s.leases
    ensures Replay(t, DeleteLeases(ids)) == t.(leases := CastOut(s, w, g).leases)
  {
    hide Replay, Apply;
    DeleteLeasesEffect(t, ids);
    forall r | r in s.leases
      ensures s.leases[r].leaseId in ids <==> s.leases[r].workerId == w && s.leases[r].generation == g
    {
      assert s.leases[r].leaseId in ids <==> HoldsLease(s, w, g, s.leases[r].leaseId);
    }
    assert Replay(t, DeleteLeases(ids)).leases == CastOut(s, w, g).leases;
  }

  /** A stored generation that is not revoked. */
  predicate Known(s: Store, g: Generation) {
    exists w :: w in s.workers && s.workers[w].generation == g && s.workers[w].stage != Revoked
  }

  /** Isolating casts a known generation out, and otherwise does nothing. */
  function CastOutIfKnown(s: Store, w: WorkerId, g: Generation): Store {
    if Known(s, g) then CastOut(s, w, g) else s
  }

  lemma IsolateCasts(s: Store, w: WorkerId, g: Generation, ids: seq<LeaseId>)
    requires UniqueLeaseIds(s.leases) && Lists(s, w, g, ids)
    ensures Replay(s, Isolate(s, w, g, ids)) == CastOutIfKnown(s, w, g)
  {
    hide RevokeWorker, DeleteLeases, Apply;
    if Known(s, g) {
      RevokeThenReclaim(s, w, g, ids);
    }
  }

  lemma NothingWritten(s: Store)
    ensures Replay(s, []) == s
  {}
}
