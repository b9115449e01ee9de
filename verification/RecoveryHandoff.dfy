/** What a recovery attempt may rely on once it is told to resume, and what it leaves otherwise. */
module RecoveryHandoff {
  import opened Options
  import opened RequestStages
  import opened DurableTypes
  import opened Store
  import opened RecoveryPlan
  import opened Steps
  import opened Discipline
  import opened Effects
  import opened Boundaries

  /** The store serves one checkpoint per slot, each under its own name. */
  lemma ListedOncePerSegment(s: Store, id: RequestId, cs: seq<Checkpoint>)
    requires CheckpointsKeyed(s) && ListsCheckpoints(s, id, cs)
    ensures OnePerSegment(cs)
    ensures forall c :: c in cs ==> (id, c.segment) in s.checkpoints && s.checkpoints[(id, c.segment)] == c
  {
    ListedCheckpoints(s, id, cs);
    forall c | c in cs
      ensures (id, c.segment) in s.checkpoints && s.checkpoints[(id, c.segment)] == c
    {
      var k :| k in s.checkpoints && s.checkpoints[k] == c && c.requestId == id;
      assert k == (id, c.segment);
    }
  }

  /** The claim, the reclaim and the normalisation of a resume, as one change of the store. */
  lemma ResumeEffect(s: Store, id: RequestId, claim: Op, from: Stage)
    requires claim.Bookkeeping?
    requires id in s.requests && s.requests[id].stage == from && !Terminal(from)
    ensures var ops := [claim]
            + (Reclaim(s, id) + (if from != Queued then [Requests(Transition(id, from, Queued))] else []));
            var t := Replay(s, ops);
            && t.books == Apply(s, claim).books
            && t.requests == s.requests[id := s.requests[id].(stage := Queued)]
            && id !in t.leases && Within(t.leases, s.leases)
            && t.checkpoints == s.checkpoints && t.results == s.results
            && t.cancellations == s.cancellations && t.workers == s.workers
  {
    var s1 := Apply(s, claim);
    assert s1 == s.(books := s1.books);
    assert Reclaim(s1, id) == Reclaim(s, id);
    var queue := if from != Queued then [Requests(Transition(id, from, Queued))] else [];
    hide Reclaim, Replay;
    ReclaimEffect(s1, id);
    var s2 := Replay(s1, Reclaim(s, id));
    QueueEffect(s2, id, from);
    ReplayAppend(s1, Reclaim(s, id), queue);
    ReplayLead(s, claim, Reclaim(s, id) + queue);
  }

  lemma QueueEffect(s: Store, id: RequestId, from: Stage)
    requires id in s.requests && s.requests[id].stage == from
    ensures Replay(s, if from != Queued then [Requests(Transition(id, from, Queued))] else [])
         == s.(requests := s.requests[id := s.requests[id].(stage := Queued)])
  {
    if from != Queued {
      ReplaySingle(s, Requests(Transition(id, from, Queued)));
    }
  }

  lemma LetGoEffect(s: Store, id: RequestId, claim: Op, owner: OwnerId)
    requires claim.Bookkeeping?
    ensures var t := Replay(s, [claim] + [Bookkeeping(Release(id, owner))]);
            && t == s.(books := t.books)
            && (id in t.books.ownerships ==> t.books.ownerships[id].ownerId != owner)
  {
    ReplayLead(s, claim, [Bookkeeping(Release(id, owner))]);
    ReplaySingle(Apply(s, claim), Bookkeeping(Release(id, owner)));
  }

  /** Everything execution relies on when it is handed a request to resume. */
  ghost predicate ReadyToRun(t: Store, id: RequestId, owner: OwnerId, now: nat, ttlMs: nat, maxRetries: nat,
                             digest: string,
                             o: Ownership, segment: nat, checkpoint: Option<Checkpoint>)
  {
    && o == Ownership(id, owner, now, now + ttlMs)
    && id in t.books.ownerships && t.books.ownerships[id] == o
    && id in t.requests
    && t.requests[id].stage == Queued
    && t.requests[id].currentSegment == segment
    && t.requests[id].manifestDigest == digest
    && t.requests[id].retryCount <= maxRetries
    && (t.requests[id].timeoutMs.Some? ==> now < t.requests[id].createdAt + t.requests[id].timeoutMs.value)
    && id !in t.leases
    && id !in t.cancellations
    && (segment == 0 ==> checkpoint.None?)
    && (segment > 0 ==>
          && checkpoint.Some?
          && (id, segment - 1) in t.checkpoints && t.checkpoints[(id, segment - 1)] == checkpoint.value
          && checkpoint.value.requestId == id
          && checkpoint.value.manifestDigest == digest
          && !Expired(checkpoint.value, now))
  }

  predicate Unowned(t: Store, id: RequestId, owner: OwnerId) {
    id in t.books.ownerships ==> t.books.ownerships[id].ownerId != owner
  }

  /**
   * A resume hands over a claimed, queued, unleased request with everything its
   * next segment needs; any other outcome leaves no claim taken by the call.
   * The whole stretch runs without an await, so nothing changes under it.
   */
  lemma HandoffIsSound(s: Store, id: RequestId, owner: OwnerId, now: nat, ttlMs: nat, maxRetries: nat,
                       digest: string, cs: seq<Checkpoint>)
    requires RequestsKeyed(s) && CheckpointsKeyed(s) && ListsCheckpoints(s, id, cs)
    ensures var step := BeginRecovery(s, id, owner, now, ttlMs, maxRetries, digest, cs);
            var t := Replay(s, step.ops);
            match step.out
            case ResumeClaimed(o, segment, checkpoint, _) =>
              && ReadyToRun(t, id, owner, now, ttlMs, maxRetries, digest, o, segment, checkpoint)
              && t.requests == s.requests[id := s.requests[id].(stage := Queued)]
            case WaitOwner(_, _) => t == s.(books := t.books) && Unowned(t, id, owner)
            case OwnedByPeer(o) =>
              t == s && id in s.books.ownerships && s.books.ownerships[id] == o && o.ownerId != owner
                  && now < o.expiresAt
            case RecoveredTerminal(stage) =>
              && id in t.requests && t.requests[id].stage == stage && Terminal(stage)
              && (t == s || Unowned(t, id, owner))
            case Missing => t == s && id !in s.requests
            case StateChanged(_) => false
  {
    hide Apply, Replay, ClosePlan, Reclaim, Decide, ListsCheckpoints, CheckpointsKeyed, ReadyToRun, OnlyRequest, Within;
    NothingReplays(s);
    var step := BeginRecovery(s, id, owner, now, ttlMs, maxRetries, digest, cs);
    if id in s.requests && !Terminal(s.requests[id].stage) {
      var o := Ownership(id, owner, now, now + ttlMs);
      var claim := Bookkeeping(Claim(o, now));
      match Decide(SnapshotOf(s, id, cs), now, maxRetries, digest)
      case AlreadyTerminal(_) => NeverAlreadyTerminal(SnapshotOf(s, id, cs), now, maxRetries, digest);
      case WaitActiveOwner(_, _) => LetGoEffect(s, id, claim, owner);
      case Cancel(_) => ClosingHandsBack(s, id, owner, claim, Cancelled, UserCancellation);
      case Fail(code, _) => ClosingHandsBack(s, id, owner, claim, Failed, code);
      case Resume(_, _, _, _, _, _) =>
        if step.out.ResumeClaimed? {
          ResumeHandsOver(s, id, owner, now, ttlMs, maxRetries, digest, cs);
        }
    }
  }

  lemma NeverAlreadyTerminal(snapshot: Snapshot, now: nat, maxRetries: nat, digest: string)
    requires !Terminal(snapshot.request.stage)
    ensures !Decide(snapshot, now, maxRetries, digest).AlreadyTerminal?
  {}

  lemma ClosingHandsBack(s: Store, id: RequestId, owner: OwnerId, claim: Op, stage: Stage, code: ErrorCode)
    requires claim.Bookkeeping? && Terminal(stage)
    requires id in s.requests && !Terminal(s.requests[id].stage)
    ensures var step := ClosePlan(s, id, owner, stage, code);
            var t := Replay(s, [claim] + step.ops);
            && step.out == RecoveredTerminal(stage)
            && id in t.requests && t.requests[id].stage == stage && Unowned(t, id, owner)
  {
    hide Apply, Replay, Terminalize, Reclaim;
    ClosePlanEffect(s, id, owner, claim, stage, code);
  }

  lemma NothingReplays(s: Store)
    ensures Replay(s, []) == s
  {}

  lemma ClaimStores(s: Store, o: Ownership, now: nat)
    requires ClaimFires(s.books.ownerships, o, now)
    ensures Apply(s, Bookkeeping(Claim(o, now))).books.ownerships == s.books.ownerships[o.requestId := o]
  {}

  lemma ResumeHandsOver(s: Store, id: RequestId, owner: OwnerId, now: nat, ttlMs: nat, maxRetries: nat,
                        digest: string, cs: seq<Checkpoint>)
    requires RequestsKeyed(s) && CheckpointsKeyed(s) && ListsCheckpoints(s, id, cs)
    requires BeginRecovery(s, id, owner, now, ttlMs, maxRetries, digest, cs).out.ResumeClaimed?
    ensures var step := BeginRecovery(s, id, owner, now, ttlMs, maxRetries, digest, cs);
            var t := Replay(s, step.ops);
            && ReadyToRun(t, id, owner, now, ttlMs, maxRetries, digest, step.out.ownership, step.out.segment,
                          step.out.checkpoint)
            && t.requests == s.requests[id := s.requests[id].(stage := Queued)]
  {
    hide Apply, Replay, Reclaim, CheckpointsKeyed, ListsCheckpoints, Decide, ReadyToRun, Within;
    var o := Ownership(id, owner, now, now + ttlMs);
    var claim := Bookkeeping(Claim(o, now));
    var plan := Decide(SnapshotOf(s, id, cs), now, maxRetries, digest);
    NotResumed(s, id, owner, o, plan);
    ClaimStores(s, o, now);
    ResumePlansUsable(s, id, cs, now, maxRetries, digest);
    ResumeEffect(s, id, claim, s.requests[id].stage);
    var ops := BeginRecovery(s, id, owner, now, ttlMs, maxRetries, digest, cs).ops;
    UsableIsReady(s, Replay(s, ops), id, owner, now, ttlMs, maxRetries, digest, plan);
  }

  lemma NotResumed(s: Store, id: RequestId, owner: OwnerId, o: Ownership, plan: Plan)
    ensures PlanStep(s, id, owner, o, plan).out.ResumeClaimed? ==> plan.Resume?
  {}

  /** Everything a resuming plan has checked. */
  predicate Usable(s: Store, id: RequestId, now: nat, maxRetries: nat, digest: string, plan: Plan)
    requires id in s.requests && plan.Resume?
  {
    var r := s.requests[id];
    && plan.fromStage == r.stage && plan.segment == r.currentSegment && plan.normalize == (r.stage != Queued)
    && !Terminal(r.stage)
    && id !in s.cancellations
    && r.manifestDigest == digest && r.retryCount <= maxRetries
    && (r.timeoutMs.Some? ==> now < r.createdAt + r.timeoutMs.value)
    && (plan.segment == 0 ==> plan.checkpoint.None?)
    && (plan.segment > 0 ==>
          && plan.checkpoint.Some?
          && (id, plan.segment - 1) in s.checkpoints && s.checkpoints[(id, plan.segment - 1)] == plan.checkpoint.value
          && plan.checkpoint.value.requestId == id
          && plan.checkpoint.value.manifestDigest == digest
          && !Expired(plan.checkpoint.value, now))
  }

  lemma ResumePlansUsable(s: Store, id: RequestId, cs: seq<Checkpoint>, now: nat, maxRetries: nat, digest: string)
    requires RequestsKeyed(s) && CheckpointsKeyed(s) && ListsCheckpoints(s, id, cs)
    requires id in s.requests && Decide(SnapshotOf(s, id, cs), now, maxRetries, digest).Resume?
    ensures Usable(s, id, now, maxRetries, digest, Decide(SnapshotOf(s, id, cs), now, maxRetries, digest))
  {
    ListedOncePerSegment(s, id, cs);
    hide CheckpointsKeyed, ListsCheckpoints;
  }

  lemma UsableIsReady(s: Store, t: Store, id: RequestId, owner: OwnerId, now: nat, ttlMs: nat, maxRetries: nat,
                      digest: string, plan: Plan)
    requires id in s.requests && plan.Resume? && Usable(s, id, now, maxRetries, digest, plan)
    requires t.requests == s.requests[id := s.requests[id].(stage := Queued)]
    requires t.checkpoints == s.checkpoints && t.cancellations == s.cancellations && id !in t.leases
    requires id in t.books.ownerships && t.books.ownerships[id] == Ownership(id, owner, now, now + ttlMs)
    ensures ReadyToRun(t, id, owner, now, ttlMs, maxRetries, digest, Ownership(id, owner, now, now + ttlMs),
                       plan.segment, plan.checkpoint)
  {}

  /** A recovery resumes exactly when nothing stands against it: no live peer claim, no live lease, nothing wrong. */
  lemma ResumesExactlyWhenReady(s: Store, id: RequestId, owner: OwnerId, now: nat, ttlMs: nat, maxRetries: nat,
                                digest: string, cs: seq<Checkpoint>)
    requires CheckpointsKeyed(s) && ListsCheckpoints(s, id, cs)
    ensures BeginRecovery(s, id, owner, now, ttlMs, maxRetries, digest, cs).out.ResumeClaimed? <==>
              && id in s.requests
              && !(id in s.books.ownerships && s.books.ownerships[id].ownerId != owner
                   && now < s.books.ownerships[id].expiresAt)
              && Resumable(SnapshotOf(s, id, cs), now, maxRetries, digest)
              && (id in s.leases ==> s.leases[id].expiresAt <= now)
  {
    hide Apply, Replay, Reclaim, Terminalize, CheckpointsKeyed, ListsCheckpoints;
    ListedOncePerSegment(s, id, cs);
    if id in s.requests {
      DecideIsExact(SnapshotOf(s, id, cs), now, maxRetries, digest);
    }
  }
}
