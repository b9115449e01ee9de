/** What a recovery finds wrong with a stored request, what it answers, and what it leaves, told by the records. */
module RecoveryOutcomes {
  import opened Options
  import opened RequestStages
  import opened SafeIntegers
  import opened DurableTypes
  import opened Store
  import opened RecoveryPlan
  import opened Steps
  import opened Discipline
  import opened Effects
  import opened StoreChanges
  import opened RecoveryHandoff

  /** The input of the segment a stored request is at. */
  predicate InputStored(s: Store, id: RequestId, now: nat, digest: string)
    requires id in s.requests
  {
    var k := s.requests[id].currentSegment;
    k > 0 ==>
      && (id, k - 1) in s.checkpoints
      && var c := s.checkpoints[(id, k - 1)];
         c.manifestDigest == digest && c.createdAt + c.ttlMs <= MAX_SAFE_INTEGER && now < c.createdAt + c.ttlMs
  }

  /** The first thing that is wrong with a stored request. */
  function Fault(s: Store, id: RequestId, now: nat, maxRetries: nat, digest: string): Option<ErrorCode>
    requires id in s.requests
  {
    var r := s.requests[id];
    if r.manifestDigest != digest then Some(CheckpointIntegrityMismatch)
    else if r.timeoutMs.Some? && r.createdAt + r.timeoutMs.value <= now then Some(DeadlineExceeded)
    else if maxRetries < r.retryCount then Some(RuntimeTransient)
    else if !InputStored(s, id, now, digest) then Some(CheckpointIntegrityMismatch)
    else if id in s.leases && (s.leases[id].segment != r.currentSegment || s.leases[id].manifestDigest != digest)
    then Some(ResultIdentityMismatch) else None
  }

  /** No one owns the recovery of the request. */
  function Unclaimed(s: Store, id: RequestId): Store {
    s.(books := s.books.(ownerships := s.books.ownerships - {id}))
  }

  function DeadlineOf(r: Request): Option<nat> {
    match r.timeoutMs
    case None => None
    case Some(ms) => Some(r.createdAt + ms)
  }

  /** What the planner decides, told by the stored records. */
  lemma DecisionIs(s: Store, id: RequestId, now: nat, maxRetries: nat, digest: string, cs: seq<Checkpoint>)
    requires RequestsKeyed(s) && CheckpointsKeyed(s) && LeasesKeyed(s) && ListsCheckpoints(s, id, cs)
    requires id in s.requests && s.requests[id].stage !in {Completed, Failed, Cancelled}
    ensures var plan, fault := Decide(SnapshotOf(s, id, cs), now, maxRetries, digest),
                               Fault(s, id, now, maxRetries, digest);
            var r := s.requests[id];
            if id in s.cancellations then plan.Cancel?
            else if fault.Some? then plan.Fail? && plan.code == fault.value
            else if id in s.leases && now < s.leases[id].expiresAt then
              plan == WaitActiveOwner(s.leases[id], DeadlineOf(r))
            else
              && plan.Resume? && plan.fromStage == r.stage && plan.segment == r.currentSegment
              && plan.checkpoint == (if r.currentSegment == 0 then None
                                     else Some(s.checkpoints[(id, r.currentSegment - 1)]))
              && plan.normalize == (r.stage != Queued) && plan.deadlineAt == DeadlineOf(r)
  {
    hide ListsCheckpoints, RequestsKeyed, CheckpointsKeyed, LeasesKeyed, Decide, Fault;
    var r := s.requests[id];
    if r.currentSegment > 0 {
      FindsInput(s, id, cs, r.currentSegment - 1);
    }
    RecordsAreKeyed(s, id);
    DecisionFrom(s, id, now, maxRetries, digest, cs);
  }

  predicate KeyedAt(s: Store, id: RequestId)
    requires id in s.requests
  {
    var k := s.requests[id].currentSegment;
    && s.requests[id].id == id
    && (id in s.leases ==> s.leases[id].requestId == id)
    && (k > 0 && (id, k - 1) in s.checkpoints ==>
          s.checkpoints[(id, k - 1)].requestId == id && s.checkpoints[(id, k - 1)].segment == k - 1)
  }

  lemma RecordsAreKeyed(s: Store, id: RequestId)
    requires RequestsKeyed(s) && CheckpointsKeyed(s) && LeasesKeyed(s) && id in s.requests
    ensures KeyedAt(s, id)
  {}

  lemma DecisionFrom(s: Store, id: RequestId, now: nat, maxRetries: nat, digest: string, cs: seq<Checkpoint>)
    requires id in s.requests && s.requests[id].stage !in {Completed, Failed, Cancelled} && KeyedAt(s, id)
    requires var k := s.requests[id].currentSegment;
             k > 0 ==> FindSegment(cs, k - 1)
                       == if (id, k - 1) in s.checkpoints then Some(s.checkpoints[(id, k - 1)]) else None
    ensures var plan, fault := Decide(SnapshotOf(s, id, cs), now, maxRetries, digest),
                               Fault(s, id, now, maxRetries, digest);
            var r := s.requests[id];
            if id in s.cancellations then plan.Cancel?
            else if fault.Some? then plan.Fail? && plan.code == fault.value
            else if id in s.leases && now < s.leases[id].expiresAt then
              plan == WaitActiveOwner(s.leases[id], DeadlineOf(r))
            else
              && plan.Resume? && plan.fromStage == r.stage && plan.segment == r.currentSegment
              && plan.checkpoint == (if r.currentSegment == 0 then None
                                     else Some(s.checkpoints[(id, r.currentSegment - 1)]))
              && plan.normalize == (r.stage != Queued) && plan.deadlineAt == DeadlineOf(r)
  {
    hide FindSegment;
  }

  lemma FindsInput(s: Store, id: RequestId, cs: seq<Checkpoint>, k: nat)
    requires CheckpointsKeyed(s) && ListsCheckpoints(s, id, cs)
    ensures FindSegment(cs, k) == if (id, k) in s.checkpoints then Some(s.checkpoints[(id, k)]) else None
  {
    ListedOncePerSegment(s, id, cs);
    ListedCheckpoints(s, id, cs);
    hide ListsCheckpoints;
    if (id, k) in s.checkpoints {
      assert s.checkpoints[(id, k)] in cs;
    }
  }

  lemma TerminalizeShuts(s: Store, id: RequestId, stage: Stage, code: ErrorCode)
    requires id in s.requests && s.requests[id].stage !in {Completed, Failed, Cancelled}
    requires stage in {Failed, Cancelled}
    ensures Replay(Unleased(s, id), Terminalize(s, id, stage, code)) == Shut(s, id, stage, code)
  {
    hide Replay, Apply, SetErrorIfFailed, Terminalize;
    var u := Unleased(s, id);
    var v := FromAccepted(u, id);
    AcceptedIsQueued(u, id);
    MovesThenDrops(v, id, stage, code);
    ReplayAppend(u, QueueAccepted(u, id), ClosingWrites(v, id, stage, code));
    TerminalizeIs(s, id, stage, code);
  }

  /** An accepted request is queued before it is closed. */
  function QueueAccepted(s: Store, id: RequestId): seq<Op> {
    if id in s.requests && s.requests[id].stage == Accepted then [Requests(Transition(id, Accepted, Queued))] else []
  }

  function FromAccepted(s: Store, id: RequestId): Store
    requires id in s.requests
  {
    var r := s.requests[id];
    s.(requests := s.requests[id := r.(stage := if r.stage == Accepted then Queued else r.stage)])
  }

  function ClosingWrites(s: Store, id: RequestId, stage: Stage, code: ErrorCode): seq<Op>
    requires id in s.requests
  {
    [Requests(Transition(id, s.requests[id].stage, stage))] + SetErrorIfFailed(id, stage, code)
    + [Checkpoints(DeleteCheckpoints(id))]
  }

  lemma TerminalizeIs(s: Store, id: RequestId, stage: Stage, code: ErrorCode)
    requires id in s.requests && s.requests[id].stage !in {Completed, Failed, Cancelled}
    ensures var u := Unleased(s, id);
            Terminalize(s, id, stage, code)
                == QueueAccepted(u, id) + ClosingWrites(FromAccepted(u, id), id, stage, code)
  {
    hide SetErrorIfFailed;
  }

  lemma AcceptedIsQueued(s: Store, id: RequestId)
    requires id in s.requests
    ensures Replay(s, QueueAccepted(s, id)) == FromAccepted(s, id)
  {
    if s.requests[id].stage == Accepted {
      ReplaySingle(s, Requests(Transition(id, Accepted, Queued)));
    } else {
      NothingWritten(s);
    }
  }

  lemma MovesThenDrops(s: Store, id: RequestId, stage: Stage, code: ErrorCode)
    requires CanBeShut(s, id) && stage in {Failed, Cancelled}
    ensures var r := s.requests[id];
            Replay(s, ClosingWrites(s, id, stage, code))
            == s.(requests := s.requests[id := r.(stage := stage,
                                                  lastError := if stage == Failed then Some(code) else r.lastError)],
                  checkpoints := map k | k in s.checkpoints && k.0 != id && !(id + ":" <= k.0) :: s.checkpoints[k])
  {
    hide Replay, Apply, SetErrorIfFailed;
    var move := [Requests(Transition(id, s.requests[id].stage, stage))] + SetErrorIfFailed(id, stage, code);
    var drop := Checkpoints(DeleteCheckpoints(id));
    var t := MovedTo(s, id, stage, code);
    ReplayAppend(s, move, [drop]);
    ReplaySingle(t, drop);
    var end := DropsCheckpoints(t, id);
  }

  /** A closing plan shuts the request and leaves no claim. */
  lemma CloseShuts(s: Store, id: RequestId, owner: OwnerId, o: Ownership, now: nat, stage: Stage, code: ErrorCode)
    requires UniqueLeaseIds(s.leases) && stage in {Failed, Cancelled}
    requires id in s.requests && s.requests[id].stage !in {Completed, Failed, Cancelled}
    requires o.requestId == id && o.ownerId == owner && ClaimFires(s.books.ownerships, o, now)
    ensures ClosePlan(s, id, owner, stage, code).out == RecoveredTerminal(stage)
    ensures Replay(s, [Bookkeeping(Claim(o, now))] + ClosePlan(s, id, owner, stage, code).ops)
         == Shut(Unclaimed(s, id), id, stage, code)
  {
    hide Replay, UniqueLeaseIds, Reclaim, Terminalize, Shut;
    var claim, release := Bookkeeping(Claim(o, now)), Bookkeeping(Release(id, owner));
    var s1 := Apply(s, claim);
    LikeLeases(s, s1, id);
    ReclaimGives(s1, id);
    var reclaim, close := Reclaim(s, id), Terminalize(s, id, stage, code);
    TerminalizesAlike(s, s1, id, stage, code);
    TerminalizeShuts(s1, id, stage, code);
    ReplayAppend(s1, reclaim, close);
    ReplayAppend(s1, reclaim + close, [release]);
    var t := Replay(s1, reclaim + close);
    ReplaySingle(t, release);
    ReplayLead(s, claim, reclaim + close + [release]);
    ShutReleases(s, s1, id, owner, o, stage, code);
  }

  lemma TerminalizesAlike(s: Store, t: Store, id: RequestId, stage: Stage, code: ErrorCode)
    requires s.requests == t.requests
    ensures Terminalize(s, id, stage, code) == Terminalize(t, id, stage, code)
  {}

  lemma ShutReleases(s: Store, s1: Store, id: RequestId, owner: OwnerId, o: Ownership, stage: Stage, code: ErrorCode)
    requires id in s.requests && o.requestId == id && o.ownerId == owner
    requires s1 == s.(books := s.books.(ownerships := s.books.ownerships[id := o]))
    ensures Apply(Shut(s1, id, stage, code), Bookkeeping(Release(id, owner))) == Shut(Unclaimed(s, id), id, stage, code)
  {
    assert s.books.ownerships[id := o] - {id} == s.books.ownerships - {id};
  }

  /**
   * What a recovery answers and leaves: a cancelled request is closed as cancelled, a
   * faulty one as failed with its first fault, one with a live lease is left to its
   * owner, and any other is claimed, queued and without a lease.
   */
  lemma RecoveryLeaves(s: Store, id: RequestId, owner: OwnerId, now: nat, ttlMs: nat, maxRetries: nat,
                          digest: string, cs: seq<Checkpoint>)
    requires RequestsKeyed(s) && CheckpointsKeyed(s) && LeasesKeyed(s) && UniqueLeaseIds(s.leases)
    requires ListsCheckpoints(s, id, cs)
    ensures var step := BeginRecovery(s, id, owner, now, ttlMs, maxRetries, digest, cs);
            var t, o := Replay(s, step.ops), Ownership(id, owner, now, now + ttlMs);
            if id !in s.requests then step.out == Missing && t == s
            else
              var r := s.requests[id];
              if r.stage in {Completed, Failed, Cancelled} then step.out == RecoveredTerminal(r.stage) && t == s
              else if id in s.books.ownerships && s.books.ownerships[id].ownerId != owner
                      && now < s.books.ownerships[id].expiresAt then
                step.out == OwnedByPeer(s.books.ownerships[id]) && t == s
              else if id in s.cancellations then
                && step.out == RecoveredTerminal(Cancelled)
                && t == Shut(Unclaimed(s, id), id, Cancelled, UserCancellation)
              else if Fault(s, id, now, maxRetries, digest).Some? then
                && step.out == RecoveredTerminal(Failed)
                && t == Shut(Unclaimed(s, id), id, Failed, Fault(s, id, now, maxRetries, digest).value)
              else if id in s.leases && now < s.leases[id].expiresAt then
                step.out == WaitOwner(s.leases[id], DeadlineOf(r)) && t == Unclaimed(s, id)
              else
                && step.out == ResumeClaimed(o, r.currentSegment,
                                             if r.currentSegment == 0 then None
                                             else Some(s.checkpoints[(id, r.currentSegment - 1)]), DeadlineOf(r))
                && t == s.(requests := s.requests[id := r.(stage := Queued)], leases := s.leases - {id},
                           books := s.books.(ownerships := s.books.ownerships[id := o]))
  {
    hide Replay, UniqueLeaseIds, Reclaim, ClosePlan, Shut, ListsCheckpoints, RequestsKeyed, LeasesKeyed,
      CheckpointsKeyed, Fault, Decide, Apply;
    NothingWritten(s);
    if id in s.requests && s.requests[id].stage !in {Completed, Failed, Cancelled} {
      var o := Ownership(id, owner, now, now + ttlMs);
      DecisionIs(s, id, now, maxRetries, digest, cs);
      if ClaimFires(s.books.ownerships, o, now) {
        match Decide(SnapshotOf(s, id, cs), now, maxRetries, digest)
        case AlreadyTerminal(_) => assert false;
        case WaitActiveOwner(_, _) => LetsGo(s, id, owner, o, now);
        case Cancel(_) => CloseShuts(s, id, owner, o, now, Cancelled, UserCancellation);
        case Fail(code, _) => CloseShuts(s, id, owner, o, now, Failed, code);
        case Resume(_, _, _, _, _, _) => ResumeLeaves(s, id, o, now);
      }
    }
  }

  lemma LetsGo(s: Store, id: RequestId, owner: OwnerId, o: Ownership, now: nat)
    requires o.requestId == id && o.ownerId == owner && ClaimFires(s.books.ownerships, o, now)
    ensures Replay(s, [Bookkeeping(Claim(o, now))] + [Bookkeeping(Release(id, owner))]) == Unclaimed(s, id)
  {
    hide Replay, Apply;
    var claim, release := Bookkeeping(Claim(o, now)), Bookkeeping(Release(id, owner));
    ReplayTwo(s, claim, release);
    assert [claim] + [release] == [claim, release];
    ClaimThenRelease(s, id, owner, o, now);
  }

  lemma ClaimThenRelease(s: Store, id: RequestId, owner: OwnerId, o: Ownership, now: nat)
    requires o.requestId == id && o.ownerId == owner && ClaimFires(s.books.ownerships, o, now)
    ensures Apply(Apply(s, Bookkeeping(Claim(o, now))), Bookkeeping(Release(id, owner))) == Unclaimed(s, id)
  {
    assert s.books.ownerships[id := o] - {id} == s.books.ownerships - {id};
  }

  lemma ResumeLeaves(s: Store, id: RequestId, o: Ownership, now: nat)
    requires UniqueLeaseIds(s.leases) && id in s.requests && s.requests[id].stage !in {Completed, Failed, Cancelled}
    requires o.requestId == id && ClaimFires(s.books.ownerships, o, now)
    ensures var from := s.requests[id].stage;
            var queue := if from != Queued then [Requests(Transition(id, from, Queued))] else [];
            Replay(s, [Bookkeeping(Claim(o, now))] + (Reclaim(s, id) + queue))
            == s.(requests := s.requests[id := s.requests[id].(stage := Queued)], leases := s.leases - {id},
                  books := s.books.(ownerships := s.books.ownerships[id := o]))
  {
    hide Reclaim, UniqueLeaseIds;
    var from := s.requests[id].stage;
    var queue := if from != Queued then [Requests(Transition(id, from, Queued))] else [];
    var claim := Bookkeeping(Claim(o, now));
    var s1 := Apply(s, claim);
    LikeLeases(s, s1, id);
    ReclaimGives(s1, id);
    QueueEffect(Unleased(s1, id), id, from);
    ReplayAppend(s1, Reclaim(s, id), queue);
    ReplayLead(s, claim, Reclaim(s, id) + queue);
  }
}
