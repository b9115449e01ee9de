/** Where a run goes next from each of its control points, told by the records it finds there. */
module RunControl {
  import opened Options
  import opened RequestStages
  import opened DurableTypes
  import opened Store
  import opened Steps
  import opened Runs
  import opened StoreChanges
  import opened AttemptOutcomes
  import opened StepOutcomes

  /**
   * A segment is entered while there is one and the request is open; an abort is thrown, anything
   * else ends the loop.
   */
  lemma FromSegment(s: Store, r: Run, k: nat, now: nat, c: Choice)
    requires r.pc == AtSegment(k) && UniqueLeaseIds(s.leases) && (c.pick.Some? ==> c.pick.value in s.workers)
    ensures Stretch(s, r, now, c).out
         == if k >= r.total then Ended(None)
            else if r.aborted then Ended(Some(UserCancellation))
            else if Over(s, r.id) || r.id in s.cancellations then Ended(None)
            else AtAttempt(k, 0)
  {
    hide Finalize, UniqueLeaseIds;
    HeadLeaves(s, r.id, k, r.total, r.aborted);
  }

  /** An attempt executes, waits for a worker, gives up on the segment, or is thrown out. */
  lemma FromAttempt(s: Store, r: Run, k: nat, n: nat, now: nat, c: Choice)
    requires r.pc == AtAttempt(k, n) && UniqueLeaseIds(s.leases)
    requires c.pick.Some? ==> c.pick.value in s.workers && s.workers[c.pick.value].id == c.pick.value
    ensures var pc := Stretch(s, r, now, c).out;
            if n > r.cfg.maxRetries then pc == SegmentDone(k, false)
            else if r.aborted then pc == Ended(Some(UserCancellation))
            else if Over(s, r.id) || r.id in s.cancellations || !InputReady(s, r.cfg, r.id, k, now) then
              pc == SegmentDone(k, false)
            else if c.pick.None? then pc == if n < r.cfg.maxRetries then Delaying(k, n) else SegmentDone(k, false)
            else if s.requests[r.id].stage in {Queued, RetryWait} then
              && pc.Executing? && pc.segment == k && pc.attempt == n
              && pc.assignment.identity == Identity(r.id, c.attemptId, c.lease, c.pick.value,
                                                    s.workers[c.pick.value].generation, k)
            else pc == Ended(Some(StateTransitionViolation))
  {
    hide Dispatch, UniqueLeaseIds, InputReady, Over, Replay;
    if n > r.cfg.maxRetries || r.aborted || Over(s, r.id) || r.id in s.cancellations {
      DispatchGivesUp(r.cfg, s, r.id, k, n, r.aborted, c.pick, c.attemptId, c.lease, now);
    } else if !InputReady(s, r.cfg, r.id, k, now) {
      DispatchMissesInput(r.cfg, s, r.id, k, n, c.pick, c.attemptId, c.lease, now);
    } else if c.pick.None? {
      DispatchFindsNoWorker(r.cfg, s, r.id, k, n, c.attemptId, c.lease, now);
    } else {
      OpenWithInput(r.cfg, s, r.id, k, now);
      DispatchHandsOver(r.cfg, s, r.id, k, n, c.pick.value, c.attemptId, c.lease, now);
    }
  }

  /** A failed execution waits for its next attempt while its code is worth it and the durable budget lasts. */
  lemma FromFailure(s: Store, r: Run, k: nat, n: nat, a: Assignment, code: ErrorCode, now: nat, c: Choice)
    requires r.pc == Executing(k, n, a) && c.settled == Threw(code) && UniqueLeaseIds(s.leases)
    requires c.pick.Some? ==> c.pick.value in s.workers
    ensures var pc, id := Stretch(s, r, now, c).out, a.identity.requestId;
            if r.aborted then pc == Ended(Some(code))
            else if !WorthRetrying(code) || id !in s.requests || s.requests[id].retryCount >= r.cfg.maxRetries then
              pc == SegmentDone(k, false)
            else if s.requests[id].stage != Running then pc == Ended(Some(StateTransitionViolation))
            else pc == Delaying(k, n)
  {
    hide Recover, UniqueLeaseIds, Replay;
    RecoverLeaves(r.cfg, s, a, code, r.aborted);
  }

  /** After the delay the next attempt follows, and nothing is written. */
  lemma FromDelay(s: Store, r: Run, k: nat, n: nat, now: nat, c: Choice)
    requires r.pc == Delaying(k, n) && (c.pick.Some? ==> c.pick.value in s.workers)
    ensures Stretch(s, r, now, c) == Step([], AtAttempt(k, n + 1))
  {}

  /** What the acceptance of the executor's answer ends with is judged, or awaited. */
  lemma FromAnswer(s: Store, r: Run, k: nat, n: nat, a: Assignment, result: WorkerResult, now: nat, c: Choice)
    requires r.pc == Executing(k, n, a) && c.settled == Answered(result)
    requires c.pick.Some? ==> c.pick.value in s.workers
    ensures var entry, pc := AcceptEntry(r.cfg, s, result, now, c.listed).out, Stretch(s, r, now, c).out;
            && (entry.Settled? ==> pc == Judged(k, n, a, entry.acceptance))
            && (entry.Validate? ==> pc == Validating(k, n, a, entry.identity, entry.checkpoint, now))
  {
    hide AcceptEntry;
  }

  /** A segment is done with a result exactly when the answer was accepted and the request can go on or is complete. */
  lemma FromVerdict(s: Store, r: Run, k: nat, n: nat, a: Assignment, acceptance: Acceptance, now: nat, c: Choice)
    requires r.pc == Judged(k, n, a, acceptance) && UniqueLeaseIds(s.leases)
    requires Lists(s, a.identity.workerId, a.identity.generation, c.listed)
    requires c.pick.Some? ==> c.pick.value in s.workers
    ensures var pc, id := Stretch(s, r, now, c).out, a.identity.requestId;
            if acceptance.AcceptedFinal? || acceptance.Duplicate? then pc == SegmentDone(k, true)
            else if acceptance.AcceptedCheckpoint? then
              if id in s.requests && s.requests[id].stage == Running then pc == SegmentDone(k, true)
              else if r.aborted then pc == Ended(Some(StateTransitionViolation))
              else pc == SegmentDone(k, false)
            else pc == SegmentDone(k, false)
  {
    hide Continue, UniqueLeaseIds, Replay, Lists;
    match acceptance
    case AcceptedFinal => ContinueAfterSuccess(r.cfg, s, a, acceptance, r.aborted, c.listed);
    case Duplicate => ContinueAfterSuccess(r.cfg, s, a, acceptance, r.aborted, c.listed);
    case AcceptedCheckpoint(_) => ContinueAfterSuccess(r.cfg, s, a, acceptance, r.aborted, c.listed);
    case AcceptCancelled => ContinueAfterCancel(r.cfg, s, a, r.aborted, c.listed);
    case _ => ContinueAfterRefusal(r.cfg, s, a, acceptance, r.aborted, c.listed);
  }

  /** The next segment follows one with a result while the request is open; otherwise the loop ends. */
  lemma FromDone(s: Store, r: Run, k: nat, got: bool, now: nat, c: Choice)
    requires r.pc == SegmentDone(k, got) && UniqueLeaseIds(s.leases) && (c.pick.Some? ==> c.pick.value in s.workers)
    ensures Stretch(s, r, now, c).out
         == if got && r.id in s.requests && s.requests[r.id].stage !in {Completed, Cancelled}
               && r.id !in s.cancellations then AtSegment(k + 1) else Ended(None)
  {
    hide SegmentTail, UniqueLeaseIds, Replay;
    TailLeaves(s, r.id, k, got);
  }

  /** An ended run is finished, and lost exactly when it threw an abort because a peer took over its recovery. */
  lemma FromEnd(s: Store, r: Run, thrown: Option<ErrorCode>, now: nat, c: Choice)
    requires r.pc == Ended(thrown) && (c.pick.Some? ==> c.pick.value in s.workers)
    ensures Stretch(s, r, now, c).out == Finished(thrown == Some(UserCancellation) && r.kind == ByOwnershipLoss)
    ensures Stretch(s, r, now, c).ops == EndRun(s, r.id, thrown, r.kind, now)
  {
    hide EndRun;
  }
}
