/** What a freshly started coordinator decides to do with one stored request. */
module RecoveryPlan {
  import opened Options
  import opened RequestStages
  import opened DurableTypes

  datatype Snapshot = Snapshot(
    request: Request, activeLease: Option<Lease>, checkpoints: seq<Checkpoint>, cancelled: bool)

  datatype Plan =
    | AlreadyTerminal(stage: Stage)
    | Cancel(reclaim: Option<Lease>)
    | WaitActiveOwner(lease: Lease, deadlineAt: Option<nat>)
    | Resume(fromStage: Stage, segment: nat, checkpoint: Option<Checkpoint>,
             reclaim: Option<Lease>, normalize: bool, deadlineAt: Option<nat>)
    | Fail(code: ErrorCode, reclaim: Option<Lease>)

  function AbsoluteDeadline(r: Request): Option<nat> {
    if r.timeoutMs.None? then None else Some(r.createdAt + r.timeoutMs.value)
  }

  function FindSegment(checkpoints: seq<Checkpoint>, segment: nat): (c: Option<Checkpoint>)
    ensures c.Some? ==> c.value in checkpoints && c.value.segment == segment
    ensures c.None? ==> forall x :: x in checkpoints ==> x.segment != segment
  {
    if checkpoints == [] then None
    else if checkpoints[0].segment == segment then Some(checkpoints[0])
    else FindSegment(checkpoints[1..], segment)
  }

  function Predecessor(r: Request, checkpoints: seq<Checkpoint>): Option<Checkpoint> {
    if r.currentSegment == 0 then None else FindSegment(checkpoints, r.currentSegment - 1)
  }

  predicate UsablePredecessor(r: Request, c: Option<Checkpoint>, now: nat, digest: string) {
    r.currentSegment == 0 ||
    (&& c.Some?
     && c.value.requestId == r.id
     && c.value.segment == r.currentSegment - 1
     && c.value.manifestDigest == digest
     && !Expired(c.value, now))
  }

  predicate LeaseBelongs(r: Request, l: Lease, digest: string) {
    l.requestId == r.id && l.segment == r.currentSegment && l.manifestDigest == digest
  }

  function Decide(snapshot: Snapshot, now: nat, maxRetries: nat, digest: string): Plan {
    var r := snapshot.request;
    var lease := snapshot.activeLease;
    var deadline := AbsoluteDeadline(r);
    var previous := Predecessor(r, snapshot.checkpoints);
    if Terminal(r.stage) then AlreadyTerminal(r.stage)
    else if snapshot.cancelled then Cancel(lease)
    else if r.manifestDigest != digest then Fail(CheckpointIntegrityMismatch, lease)
    else if deadline.Some? && now >= deadline.value then Fail(DeadlineExceeded, lease)
    else if r.retryCount > maxRetries then Fail(RuntimeTransient, lease)
    else if !UsablePredecessor(r, previous, now, digest) then Fail(CheckpointIntegrityMismatch, lease)
    else if lease.Some? && !LeaseBelongs(r, lease.value, digest) then Fail(ResultIdentityMismatch, lease)
    else if lease.Some? && now < lease.value.expiresAt then WaitActiveOwner(lease.value, deadline)
    else Resume(r.stage, r.currentSegment, previous, lease, r.stage != Queued, deadline)
  }

  /** Execution may continue from this request: nothing stands against it. */
  predicate Resumable(snapshot: Snapshot, now: nat, maxRetries: nat, digest: string) {
    var r := snapshot.request;
    && !Terminal(r.stage)
    && !snapshot.cancelled
    && r.manifestDigest == digest
    && (r.timeoutMs.Some? ==> now < r.createdAt + r.timeoutMs.value)
    && r.retryCount <= maxRetries
    && (r.currentSegment > 0 ==>
          exists c :: c in snapshot.checkpoints && UsablePredecessor(r, Some(c), now, digest))
    && (snapshot.activeLease.Some? ==> LeaseBelongs(r, snapshot.activeLease.value, digest))
  }

  /** At most one checkpoint per segment, as the slot key of the store guarantees. */
  predicate OnePerSegment(checkpoints: seq<Checkpoint>) {
    forall c, d :: c in checkpoints && d in checkpoints && c.segment == d.segment ==> c == d
  }

  /**
   * The planner resumes exactly the resumable requests whose lease, if any, has
   * run out, and waits exactly for the resumable ones whose lease is live. At
   * the instant of expiry the lease is already abandoned here, while the lease
   * matcher still accepts it.
   */
  lemma DecideIsExact(snapshot: Snapshot, now: nat, maxRetries: nat, digest: string)
    requires OnePerSegment(snapshot.checkpoints)
    ensures Decide(snapshot, now, maxRetries, digest).Resume? <==>
              && Resumable(snapshot, now, maxRetries, digest)
              && (snapshot.activeLease.Some? ==> snapshot.activeLease.value.expiresAt <= now)
    ensures Decide(snapshot, now, maxRetries, digest).WaitActiveOwner? <==>
              && Resumable(snapshot, now, maxRetries, digest)
              && snapshot.activeLease.Some? && now < snapshot.activeLease.value.expiresAt
    ensures Decide(snapshot, now, maxRetries, digest).Cancel? <==>
              !Terminal(snapshot.request.stage) && snapshot.cancelled
  {
    var r := snapshot.request;
    var previous := Predecessor(r, snapshot.checkpoints);
    if r.currentSegment > 0 && previous.Some? {
      assert previous.value in snapshot.checkpoints;
    }
  }

  /** The fault a failure code stands for. */
  predicate Faulty(code: ErrorCode, snapshot: Snapshot, now: nat, maxRetries: nat, digest: string) {
    var r := snapshot.request;
    match code
    case CheckpointIntegrityMismatch =>
      || r.manifestDigest != digest
      || (r.currentSegment > 0 && forall c :: c in snapshot.checkpoints ==> !UsablePredecessor(r, Some(c), now, digest))
    case DeadlineExceeded => r.timeoutMs.Some? && now >= r.createdAt + r.timeoutMs.value
    case RuntimeTransient => r.retryCount > maxRetries
    case ResultIdentityMismatch => snapshot.activeLease.Some? && !LeaseBelongs(r, snapshot.activeLease.value, digest)
    case _ => false
  }

  /**
   * The planner fails a request exactly when an open, uncancelled one has a fault, and the code
   * names a fault it has.
   */
  lemma FailuresAreJustified(snapshot: Snapshot, now: nat, maxRetries: nat, digest: string)
    requires OnePerSegment(snapshot.checkpoints)
    ensures var plan := Decide(snapshot, now, maxRetries, digest);
            && (plan.Fail? <==>
                  && !Terminal(snapshot.request.stage) && !snapshot.cancelled
                  && exists code :: Faulty(code, snapshot, now, maxRetries, digest))
            && (plan.Fail? ==> Faulty(plan.code, snapshot, now, maxRetries, digest))
  {
    hide Terminal;
    var r, plan := snapshot.request, Decide(snapshot, now, maxRetries, digest);
    var previous := Predecessor(r, snapshot.checkpoints);
    if r.currentSegment > 0 && !UsablePredecessor(r, previous, now, digest) {
      forall c | c in snapshot.checkpoints ensures !UsablePredecessor(r, Some(c), now, digest) {}
    }
    if plan.Fail? {
      assert Faulty(plan.code, snapshot, now, maxRetries, digest);
    }
  }

  /** Whatever is decided names the very lease that was seen, and the deadline set at creation. */
  lemma PlansNameWhatTheySaw(snapshot: Snapshot, now: nat, maxRetries: nat, digest: string)
    ensures var r, plan := snapshot.request, Decide(snapshot, now, maxRetries, digest);
            && (plan.Cancel? || plan.Fail? || plan.Resume? ==> plan.reclaim == snapshot.activeLease)
            && (plan.WaitActiveOwner? ==> snapshot.activeLease == Some(plan.lease))
            && (plan.WaitActiveOwner? || plan.Resume? ==>
                  plan.deadlineAt == if r.timeoutMs.Some? then Some(r.createdAt + r.timeoutMs.value) else None)
            && (plan.Resume? ==>
                  && plan.fromStage == r.stage && plan.segment == r.currentSegment
                  && (plan.checkpoint.Some? <==> r.currentSegment > 0)
                  && (plan.checkpoint.Some? ==> plan.checkpoint.value in snapshot.checkpoints))
  {}
}
