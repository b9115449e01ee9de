/**
 * Applying a recovery decision, as it runs: claim, plan, and compare-and-set
 * every change. The failure branches of the compare-and-set are all here;
 * that none of them is ever taken is what the contract says.
 */
module DurableRecovery {
  import opened Options
  import opened RequestStages
  import opened DurableTypes
  import opened Store
  import opened RecoveryPlan
  import opened Steps
  import opened InMemoryRepositories
  import opened LeaseManagers
  import opened Listings

  /** Delete the lease the plan saw, unless another one has taken its place. */
  method ReclaimExactLease(repo: InMemoryRepository, expected: Option<Lease>) returns (ok: bool)
    requires repo.Valid()
    modifies repo`activeLeases, repo`log
    ensures ok == (expected.Some? && expected.value.requestId in old(repo.activeLeases) ==>
                     old(repo.activeLeases)[expected.value.requestId] == expected.value)
    ensures Wrote(repo, if ok && expected.Some? then Reclaim(old(repo.Model()), expected.value.requestId) else [])
  {
    hide InMemoryRepository.Valid, Apply;
    if expected.None? || expected.value.requestId !in repo.activeLeases { return true; }
    if repo.activeLeases[expected.value.requestId] != expected.value { return false; }
    repo.DeleteLease(expected.value.leaseId);
    return true;
  }

  /** Close the request through `queued` if it was only accepted. */
  method TerminalizeRequest(repo: InMemoryRepository, id: RequestId, target: Stage, code: ErrorCode) returns (ok: bool)
    requires repo.Valid() && (target == Failed || target == Cancelled)
    modifies repo`requestRecords, repo`checkpoints, repo`slots, repo`log
    ensures Wrote(repo, Terminalize(old(repo.Model()), id, target, code))
    ensures ok == (id in old(repo.requestRecords) &&
                   (Terminal(old(repo.requestRecords)[id].stage) ==> old(repo.requestRecords)[id].stage == target))
  {
    hide InMemoryRepository.Valid, Apply;
    if id !in repo.requestRecords { return false; }
    if Terminal(repo.requestRecords[id].stage) { return repo.requestRecords[id].stage == target; }
    if repo.requestRecords[id].stage == Accepted {
      var queued := repo.TransitionStage(id, Accepted, Queued);
      if !queued { return false; }
    }
    ok := CloseRequest(repo, id, repo.requestRecords[id].stage, target, code);
    assert repo.log == old(repo.log) + Terminalize(old(repo.Model()), id, target, code);
  }

  method CloseRequest(repo: InMemoryRepository, id: RequestId, from: Stage, target: Stage, code: ErrorCode)
    returns (ok: bool)
    requires repo.Valid() && id in repo.requestRecords && repo.requestRecords[id].stage == from
    modifies repo`requestRecords, repo`checkpoints, repo`slots, repo`log
    ensures ok
    ensures Wrote(repo, [Requests(Transition(id, from, target))] + SetErrorIfFailed(id, target, code)
                        + [Checkpoints(DeleteCheckpoints(id))])
  {
    hide InMemoryRepository.Valid, Apply;
    var closed := repo.TransitionStage(id, from, target);
    if !closed { return false; }
    if target == Failed {
      repo.SetError(id, code);
    }
    repo.DeleteCheckpointsForRequest(id);
    return true;
  }

  method NormalizeResumeStage(repo: InMemoryRepository, id: RequestId, from: Stage) returns (ok: bool)
    requires repo.Valid()
    modifies repo`requestRecords, repo`log
    ensures ok == InStage(old(repo.requestRecords), id, from)
    ensures Wrote(repo, if ok && from != Queued then [Requests(Transition(id, from, Queued))] else [])
  {
    hide InMemoryRepository.Valid, Apply;
    if from == Queued { return id in repo.requestRecords && repo.requestRecords[id].stage == Queued; }
    ok := repo.TransitionStage(id, from, Queued);
  }

  /** The lease the plan saw has been replaced by another one. */
  predicate Replaced(leases: map<RequestId, Lease>, id: RequestId, expected: Option<Lease>) {
    expected.Some? && id in leases && leases[id] != expected.value
  }

  /** What recovery would write to reclaim the lease it saw. */
  function ReclaimSeen(s: Store, id: RequestId, expected: Option<Lease>): seq<Op> {
    if expected.Some? then Reclaim(s, id) else []
  }

  /** Carry out a plan that closes the request, then let the claim go. */
  method ApplyClosing(repo: InMemoryRepository, id: RequestId, owner: OwnerId, expected: Option<Lease>,
                      target: Stage, code: ErrorCode) returns (outcome: RecoveryOutcome)
    requires repo.Valid() && (target == Failed || target == Cancelled)
    requires expected.Some? ==> expected.value.requestId == id
    requires id in repo.recoveryOwnerships && repo.recoveryOwnerships[id].ownerId == owner
    modifies repo`activeLeases, repo`requestRecords, repo`checkpoints, repo`slots, repo`recoveryOwnerships, repo`log
    ensures Replaced(old(repo.activeLeases), id, expected) ==>
              outcome.StateChanged? && Wrote(repo, [Bookkeeping(Release(id, owner))])
    ensures !Replaced(old(repo.activeLeases), id, expected) ==>
              Wrote(repo, ReclaimSeen(old(repo.Model()), id, expected)
                    + Terminalize(old(repo.Model()), id, target, code)
                          + [Bookkeeping(Release(id, owner))])
    ensures var open := id in old(repo.requestRecords) && !Terminal(old(repo.requestRecords)[id].stage);
            open && !Replaced(old(repo.activeLeases), id, expected) ==> outcome == RecoveredTerminal(target)
  {
    hide InMemoryRepository.Valid, Apply, Terminalize;
    ghost var s := repo.Model();
    var reclaimed := ReclaimExactLease(repo, expected);
    if !reclaimed {
      var _ := repo.ReleaseRecoveryOwnership(id, owner);
      return StateChanged(StageNow(repo, id));
    }
    TerminalizeReadsRequests(s, repo.Model(), id, target, code);
    var ok := TerminalizeRequest(repo, id, target, code);
    var _ := repo.ReleaseRecoveryOwnership(id, owner);
    return if ok then RecoveredTerminal(target) else StateChanged(StageNow(repo, id));
  }

  lemma TerminalizeReadsRequests(s: Store, t: Store, id: RequestId, stage: Stage, code: ErrorCode)
    requires s.requests == t.requests
    ensures Terminalize(s, id, stage, code) == Terminalize(t, id, stage, code)
  {}

  function StageNow(repo: InMemoryRepository, id: RequestId): Option<Stage>
    reads repo
  {
    if id in repo.requestRecords then Some(repo.requestRecords[id].stage) else None
  }

  /** The plan's resume: give the dead lease back and queue the request again. */
  method ApplyResume(repo: InMemoryRepository, id: RequestId, owner: OwnerId, o: Ownership, plan: Plan)
    returns (outcome: RecoveryOutcome)
    requires repo.Valid() && plan.Resume? && (plan.reclaim.Some? ==> plan.reclaim.value.requestId == id)
    requires id in repo.recoveryOwnerships && repo.recoveryOwnerships[id].ownerId == owner
    modifies repo`activeLeases, repo`requestRecords, repo`recoveryOwnerships, repo`log
    ensures var stays := !Replaced(old(repo.activeLeases), id, plan.reclaim)
                         && (plan.normalize ==> InStage(old(repo.requestRecords), id, plan.fromStage));
            stays ==>
              && outcome == ResumeClaimed(o, plan.segment, plan.checkpoint, plan.deadlineAt)
              && Wrote(repo, ReclaimSeen(old(repo.Model()), id, plan.reclaim)
                             + (if plan.normalize && plan.fromStage != Queued
                                then [Requests(Transition(id, plan.fromStage, Queued))] else []))
  {
    hide InMemoryRepository.Valid, Apply;
    var reclaimed := ReclaimExactLease(repo, plan.reclaim);
    if !reclaimed {
      var _ := repo.ReleaseRecoveryOwnership(id, owner);
      return StateChanged(StageNow(repo, id));
    }
    if plan.normalize {
      var ok := NormalizeResumeStage(repo, id, plan.fromStage);
      if !ok {
        var _ := repo.ReleaseRecoveryOwnership(id, owner);
        return StateChanged(StageNow(repo, id));
      }
    }
    return ResumeClaimed(o, plan.segment, plan.checkpoint, plan.deadlineAt);
  }

  /** Apply the plan under the claim just taken. */
  method ApplyPlan(repo: InMemoryRepository, id: RequestId, owner: OwnerId, o: Ownership, plan: Plan)
    returns (outcome: RecoveryOutcome)
    requires repo.Valid()
    requires id in repo.activeLeases ==> repo.activeLeases[id].requestId == id
    requires id in repo.requestRecords && !Terminal(repo.requestRecords[id].stage)
    requires id in repo.recoveryOwnerships && repo.recoveryOwnerships[id].ownerId == owner
    requires Planned(repo.Model(), id, plan)
    modifies repo`activeLeases, repo`requestRecords, repo`checkpoints, repo`slots, repo`recoveryOwnerships, repo`log
    ensures outcome == PlanStep(old(repo.Model()), id, owner, o, plan).out
    ensures Wrote(repo, PlanStep(old(repo.Model()), id, owner, o, plan).ops)
  {
    hide InMemoryRepository.Valid, Apply, Terminalize;
    match plan
    case AlreadyTerminal(stage) =>
      var _ := repo.ReleaseRecoveryOwnership(id, owner);
      return RecoveredTerminal(stage);
    case WaitActiveOwner(lease, deadline) =>
      var _ := repo.ReleaseRecoveryOwnership(id, owner);
      return WaitOwner(lease, deadline);
    case Cancel(lease) => outcome := ApplyClosing(repo, id, owner, lease, Cancelled, UserCancellation);
    case Fail(code, lease) => outcome := ApplyClosing(repo, id, owner, lease, Failed, code);
    case Resume(_, _, _, _, _, _) => outcome := ApplyResume(repo, id, owner, o, plan);
  }

  /** A plan reclaims the lease that is stored, and resumes from the stage that is stored. */
  predicate Planned(s: Store, id: RequestId, plan: Plan) {
    match plan
    case Cancel(lease) => lease == StoredLease(s, id)
    case Fail(_, lease) => lease == StoredLease(s, id)
    case Resume(from, _, _, lease, normalize, _) =>
      lease == StoredLease(s, id) && InStage(s.requests, id, from) && normalize == (from != Queued)
    case _ => true
  }

  /** Claim, re-read everything, plan, and apply. */
  method BeginDurableRecovery(repo: InMemoryRepository, id: RequestId, owner: OwnerId, now: nat, ttlMs: nat,
                              maxRetries: nat, digest: string)
    returns (outcome: RecoveryOutcome, ghost found: seq<Checkpoint>)
    requires repo.Valid()
    requires id in repo.activeLeases ==> repo.activeLeases[id].requestId == id
    modifies repo`activeLeases, repo`requestRecords, repo`checkpoints, repo`slots, repo`recoveryOwnerships, repo`log
    ensures ListsCheckpoints(old(repo.Model()), id, found)
    ensures Wrote(repo, BeginRecovery(old(repo.Model()), id, owner, now, ttlMs, maxRetries, digest, found).ops)
    ensures outcome == BeginRecovery(old(repo.Model()), id, owner, now, ttlMs, maxRetries, digest, found).out
  {
    hide InMemoryRepository.Valid, Apply, Decide, PlanStep, ListsCheckpoints, Planned;
    found := CheckpointListingExists(repo.Model(), id);
    if id !in repo.requestRecords { return Missing, found; }
    if Terminal(repo.requestRecords[id].stage) { return RecoveredTerminal(repo.requestRecords[id].stage), found; }
    ghost var s := repo.Model();
    var o := Ownership(id, owner, now, now + ttlMs);
    ClaimEffect(s, o, now);
    var claim := repo.ClaimRecoveryOwnership(o, now);
    if claim == RefusedByPeer { return OwnedByPeer(repo.recoveryOwnerships[id]), found; }
    var listed := repo.ListCheckpoints(id);
    found := listed;
    ListsSame(s, repo.Model(), id, found);
    var snapshot := Snapshot(repo.requestRecords[id],
                             if id in repo.activeLeases then Some(repo.activeLeases[id]) else None,
                             listed, id in repo.cancellations);
    var plan := Decide(snapshot, now, maxRetries, digest);
    PlansFromSnapshot(repo.Model(), id, snapshot, now, maxRetries, digest);
    PlanReads(s, repo.Model(), id, owner, o, plan);
    outcome := ApplyPlan(repo, id, owner, o, plan);
  }

  lemma PlanReads(s: Store, t: Store, id: RequestId, owner: OwnerId, o: Ownership, plan: Plan)
    requires s.requests == t.requests && s.leases == t.leases
    ensures PlanStep(s, id, owner, o, plan) == PlanStep(t, id, owner, o, plan)
  {}

  lemma PlansFromSnapshot(s: Store, id: RequestId, snapshot: Snapshot, now: nat, maxRetries: nat, digest: string)
    requires id in s.requests && snapshot.request == s.requests[id] && snapshot.activeLease == StoredLease(s, id)
    ensures Planned(s, id, Decide(snapshot, now, maxRetries, digest))
  {}

  lemma ClaimEffect(s: Store, o: Ownership, now: nat)
    ensures Apply(s, Bookkeeping(Claim(o, now))).books.ownerships
         == if ClaimFires(s.books.ownerships, o, now) then s.books.ownerships[o.requestId := o] else s.books.ownerships
  {}

  lemma ListsSame(s: Store, t: Store, id: RequestId, found: seq<Checkpoint>)
    requires s.checkpoints == t.checkpoints && ListsCheckpoints(t, id, found)
    ensures ListsCheckpoints(s, id, found)
  {}
}
