/**
 * Who issues which kind of write. A result, a checkpoint, a lease, an attempt, a
 * retry, a key and a request each come from one place; every other write of every
 * event is quiet.
 */
module WriteKinds {
  import opened Options
  import opened RequestStages
  import opened DurableTypes
  import opened Store
  import opened RecoveryPlan
  import opened Steps
  import opened Discipline
  import opened Runs
  import opened RunProofs
  import opened CoordinatorSystem

  predicate Quiet(op: Op) {
    match op
    case Requests(o) => !o.CreateRequest? && !o.SetRetryCount?
    case Leases(o) => !o.PutLease?
    case Checkpoints(o) => !o.PutCheckpoint?
    case Workers(_) => true
    case Bookkeeping(o) => !o.BindKey? && !o.AppendAttempt?
    case Commit(_, _, _) => false
    case PutCancellation(_, _) => true
  }

  predicate AllQuiet(ops: seq<Op>) { forall op :: op in ops ==> Quiet(op) }

  lemma {:induction false} DeletesAreQuiet(ids: seq<LeaseId>)
    ensures AllQuiet(DeleteLeases(ids))
  {
    if ids != [] {
      DeletesAreQuiet(ids[1..]);
    }
  }

  lemma ClosingIsQuiet(s: Store, id: RequestId, stage: Stage, code: ErrorCode)
    ensures AllQuiet(Finalize(s, id, stage, code)) && AllQuiet(Terminalize(s, id, stage, code))
  {}

  lemma IsolatingIsQuiet(s: Store, x: WorkerId, g: Generation, ids: seq<LeaseId>)
    ensures AllQuiet(Isolate(s, x, g, ids))
  {
    DeletesAreQuiet(ids);
  }

  lemma SettlingIsQuiet(s: Store, id: Identity, code: ErrorCode)
    ensures AllQuiet(SettleFailure(s, id, code)) && AllQuiet(FailureSettled(s, id, code))
    ensures AllQuiet(MarkIdle(s, id.workerId, id.generation))
    ensures AllQuiet(MarkDisconnected(s, id.workerId, id.generation))
  {}

  // --- The stretches of a run ---

  /** A dispatch issues leases and appends attempts, and nothing else that is not quiet. */
  lemma DispatchKinds(cfg: Config, s: Store, id: RequestId, segment: nat, attempt: nat, aborted: bool,
                      pick: Option<WorkerId>, attemptId: AttemptId, lease: LeaseId, now: nat, op: Op)
    requires pick.Some? ==> pick.value in s.workers
    requires op in Dispatch(cfg, s, id, segment, attempt, aborted, pick, attemptId, lease, now).ops
    ensures Quiet(op) || (op.Leases? && op.lease.PutLease?) || Appends(op)
  {
    hide Finalize, PredecessorUsable, Replay;
    var s1 := Replay(s, Requeue(s, id));
    ClosingIsQuiet(s, id, Cancelled, UserCancellation);
    ClosingIsQuiet(s1, id, Failed, CheckpointIntegrityMismatch);
    ClosingIsQuiet(s1, id, Failed, WorkerDisconnected);
  }

  /** Up to the awaited check only the result of the owner at the last segment is committed, and as it was answered. */
  lemma EntryKinds(cfg: Config, s: Store, result: WorkerResult, now: nat, ids: seq<LeaseId>, op: Op)
    requires op in AcceptEntry(cfg, s, result, now, ids).ops
    ensures Quiet(op)
            || (&& op.Commit? && result.WorkerResult? && result.produced.Output?
                && AcceptEntry(cfg, s, result, now, ids).out == Settled(AcceptedFinal)
                && op.id == result.identity.requestId && op.id in s.requests && op.id !in s.cancellations
                && op.result == Result(op.id, result.produced.tokens, result.produced.text,
                                       s.requests[op.id].totalSegments)
                && s.requests[op.id].stage == Running
                && result.identity.segment + 1 == s.requests[op.id].totalSegments
                && Match(s, result.identity, now).None?)
  {
    hide Finalize, Isolate, Replay, Match;
    if result.WorkerResult? {
      var id := result.identity;
      ClosingIsQuiet(s, id.requestId, Cancelled, UserCancellation);
      IsolatingIsQuiet(s, id.workerId, id.generation, ids);
    }
  }

  lemma CommitKinds(cfg: Config, s: Store, id: Identity, c: Checkpoint, entered: nat, intact: bool,
                    now: nat, ids: seq<LeaseId>, op: Op)
    requires op in AcceptCommit(cfg, s, id, c, entered, intact, now, ids).ops
    ensures Quiet(op) || op == Checkpoints(PutCheckpoint(c))
  {
    hide Finalize, Isolate, Match, EnvelopeMatches, Replay;
    ClosingIsQuiet(s, id.requestId, Cancelled, UserCancellation);
    IsolatingIsQuiet(s, id.workerId, id.generation, ids);
  }

  lemma RecoverKinds(cfg: Config, s: Store, a: Assignment, code: ErrorCode, aborted: bool, op: Op)
    requires op in Recover(cfg, s, a, code, aborted).ops
    ensures Quiet(op) || (CountsRetry(op) && Retryable(code))
  {
    hide Finalize, Replay, Mark, SettleFailure;
    var settled := SettleFailure(s, a.identity, code);
    SettlingIsQuiet(s, a.identity, code);
    ClosingIsQuiet(Replay(s, settled), a.identity.requestId, Failed, code);
  }

  lemma ContinueKinds(cfg: Config, s: Store, a: Assignment, acceptance: Acceptance, aborted: bool, ids: seq<LeaseId>,
                      op: Op)
    requires op in Continue(cfg, s, a, acceptance, aborted, ids).ops
    ensures Quiet(op)
  {
    hide Finalize, Replay, Mark, Isolate, Recover;
    var id, r := a.identity, a.identity.requestId;
    var s1 := Replay(s, MarkIdle(s, id.workerId, id.generation));
    var isolated := MarkIdle(s, id.workerId, id.generation) + Isolate(s1, id.workerId, id.generation, ids);
    SettlingIsQuiet(s, id, StateTransitionViolation);
    IsolatingIsQuiet(s1, id.workerId, id.generation, ids);
    ClosingIsQuiet(s1, r, Cancelled, UserCancellation);
    ClosingIsQuiet(Replay(s, isolated), r, Failed, AcceptanceCode(acceptance));
    if op in Recover(cfg, s1, a, StateTransitionViolation, aborted).ops {
      RecoverKinds(cfg, s1, a, StateTransitionViolation, aborted, op);
    }
  }

  lemma LoopIsQuiet(s: Store, id: RequestId, segment: nat, total: nat, flag: bool)
    ensures AllQuiet(SegmentHead(s, id, segment, total, flag).ops)
    ensures AllQuiet(SegmentTail(s, id, segment, flag).ops)
  {
    hide Finalize;
    ClosingIsQuiet(s, id, Cancelled, UserCancellation);
  }

  lemma EndingIsQuiet(s: Store, id: RequestId, thrown: Option<ErrorCode>, kind: AbortKind, now: nat)
    ensures AllQuiet(EndRun(s, id, thrown, kind, now))
  {
    hide Finalize;
    ClosingIsQuiet(s, id, Failed, if thrown.Some? then thrown.value else RuntimeTransient);
    ClosingIsQuiet(s, id, Failed, DeadlineExceeded);
    ClosingIsQuiet(s, id, Cancelled, UserCancellation);
  }

  /** Which kind of write a run issues at which control point. */
  predicate KindOfPc(pc: Pc, settled: Settlement, op: Op) {
    match op
    case Requests(o) => !o.CreateRequest? && (o.SetRetryCount? ==> pc.Executing? && settled.Threw?)
    case Leases(o) => o.PutLease? ==> pc.AtAttempt?
    case Checkpoints(o) => o.PutCheckpoint? ==> pc.Validating?
    case Workers(_) => true
    case Bookkeeping(o) => !o.BindKey? && (o.AppendAttempt? ==> pc.AtAttempt?)
    case Commit(_, _, _) => pc.Executing? && settled.Answered?
    case PutCancellation(_, _) => true
  }

  lemma StretchKinds(s: Store, r: Run, now: nat, c: Choice, op: Op)
    requires c.pick.Some? ==> c.pick.value in s.workers
    requires op in Stretch(s, r, now, c).ops
    ensures KindOfPc(r.pc, c.settled, op)
  {
    hide Dispatch, AcceptEntry, AcceptCommit, Recover, Continue, SegmentHead, SegmentTail, EndRun;
    match r.pc
    case AtSegment(k) => LoopIsQuiet(s, r.id, k, r.total, r.aborted);
    case AtAttempt(k, n) =>
      DispatchKinds(r.cfg, s, r.id, k, n, r.aborted, c.pick, c.attemptId, c.lease, now, op);
    case Executing(_, _, a) =>
      if c.settled.Answered? {
        EntryKinds(r.cfg, s, c.settled.result, now, c.listed, op);
      } else {
        RecoverKinds(r.cfg, s, a, c.settled.code, r.aborted, op);
      }
    case Validating(_, _, _, identity, checkpoint, entered) =>
      CommitKinds(r.cfg, s, identity, checkpoint, entered, c.intact, now, c.listed, op);
    case Judged(_, _, a, acceptance) => ContinueKinds(r.cfg, s, a, acceptance, r.aborted, c.listed, op);
    case Delaying(_, _) =>
    case SegmentDone(k, got) => LoopIsQuiet(s, r.id, k, r.total, got);
    case Ended(thrown) => EndingIsQuiet(s, r.id, thrown, r.kind, now);
    case Finished(_) =>
  }

  // --- The other events ---

  lemma PlanIsQuiet(s: Store, id: RequestId, owner: OwnerId, o: Ownership, plan: Plan)
    ensures AllQuiet(PlanStep(s, id, owner, o, plan).ops)
  {
    hide Terminalize;
    ClosingIsQuiet(s, id, Cancelled, UserCancellation);
    if plan.Fail? {
      ClosingIsQuiet(s, id, Failed, plan.code);
    }
  }

  lemma RecoveryIsQuiet(s: Store, id: RequestId, owner: OwnerId, now: nat, ttlMs: nat, maxRetries: nat,
                        digest: string, cs: seq<Checkpoint>)
    ensures AllQuiet(BeginRecovery(s, id, owner, now, ttlMs, maxRetries, digest, cs).ops)
  {
    hide Decide, PlanStep;
    if id in s.requests {
      PlanIsQuiet(s, id, owner, Ownership(id, owner, now, now + ttlMs),
                  Decide(SnapshotOf(s, id, cs), now, maxRetries, digest));
    }
  }

  lemma CancelIsQuiet(cfg: Config, s: Store, id: RequestId, now: nat, inFlight: bool)
    ensures AllQuiet(CancelRequest(cfg, s, id, now, inFlight).ops)
  {
    hide Finalize, Replay;
    if id in s.requests && s.requests[id].stage != Completed && s.requests[id].stage != Failed {
      var record := if id in s.cancellations then s.cancellations[id]
                    else Cancellation(id, now, cfg.cancelAckDeadlineMs, None);
      ClosingIsQuiet(Replay(s, CancelPrefix(s, id, record)), id, Cancelled, UserCancellation);
      assert AllQuiet(CancelPrefix(s, id, record));
    }
  }

  lemma RegisteringIsQuiet(cfg: Config, s: Store, x: WorkerId, g: Generation, tier: nat, vramMB: nat,
                           connection: string, now: nat, ids: seq<LeaseId>)
    ensures AllQuiet(Register(cfg, s, x, tier, vramMB, connection, g, now, ids).ops)
  {
    DeletesAreQuiet(ids);
  }

  lemma WorkerMessagesAreQuiet(s: Store, x: WorkerId, g: Generation, timeoutMs: nat, now: nat, ids: seq<LeaseId>)
    ensures AllQuiet(RemoveWorker(s, x, ids)) && AllQuiet(Heartbeat(s, x, g, now))
    ensures AllQuiet(TimeOut(s, x, timeoutMs, now, ids))
  {
    DeletesAreQuiet(ids);
  }

  lemma FailureIsQuiet(s: Store, id: Identity, code: ErrorCode, now: nat, ids: seq<LeaseId>)
    ensures AllQuiet(WorkerFailure(s, id, code, now, ids))
  {
    hide Finalize, Isolate, Replay, FailureSettled;
    ClosingIsQuiet(s, id.requestId, Cancelled, UserCancellation);
    SettlingIsQuiet(s, id, code);
    IsolatingIsQuiet(Replay(s, FailureSettled(s, id, code)), id.workerId, id.generation, ids);
  }

  /** Which event may issue which kind of write. */
  predicate KindOfEvent(s: State, e: Event, op: Op)
    requires e.StepRun? ==> e.slot in s.runs
  {
    match op
    case Requests(o) =>
      && (o.CreateRequest? ==> e.SubmitRequest?)
      && (o.SetRetryCount? ==> e.StepRun? && s.runs[e.slot].run.pc.Executing? && e.choice.settled.Threw?)
    case Leases(o) => o.PutLease? ==> e.StepRun? && s.runs[e.slot].run.pc.AtAttempt?
    case Checkpoints(o) => o.PutCheckpoint? ==> e.SettlePush? || (e.StepRun? && s.runs[e.slot].run.pc.Validating?)
    case Workers(_) => true
    case Bookkeeping(o) =>
      && (o.BindKey? ==> e.SubmitRequest?)
      && (o.AppendAttempt? ==> e.StepRun? && s.runs[e.slot].run.pc.AtAttempt?)
    case Commit(_, _, _) =>
      e.PushResult? || (e.StepRun? && s.runs[e.slot].run.pc.Executing? && e.choice.settled.Answered?)
    case PutCancellation(_, _) => true
  }

  lemma RunsWriteTheirKinds(s: State, e: Event, op: Op)
    requires e.StepRun? && e.slot in s.runs && KindOfPc(s.runs[e.slot].run.pc, e.choice.settled, op)
    ensures KindOfEvent(s, e, op)
  {}

  /**
   * Every result, checkpoint, lease, attempt, retry, key and request comes from the one kind of
   * event that may write it.
   */
  lemma EachWriteHasItsEvent(s: State, e: Event, op: Op)
    requires Enabled(s, e) && op in Writes(s, e)
    ensures KindOfEvent(s, e, op)
  {
    hide DoAll, Replay, Lists, ListedFor, PickedFor, Stretch, Count, Submit, BeginRecovery, AcceptEntry, AcceptCommit,
      WorkerFailure, CancelRequest, Register, RemoveWorker, Heartbeat, TimeOut, KindOfPc;
    var t := Now(s).store;
    match e
    case Elapse(_) =>
    case SubmitRequest(_, _, cfg, key, newId, deadlineMs) =>
      SubmitKinds(cfg, t, key, newId, s.clock, deadlineMs, op);
    case RecoverRequest(_, _, cfg, id, owner, ttlMs, found) =>
      RecoveryIsQuiet(t, id, owner, s.clock, ttlMs, cfg.maxRetries, cfg.manifestDigest, found);
    case StepRun(slot, choice) =>
      StretchKinds(t, s.runs[slot].run, s.clock, choice, op);
      RunsWriteTheirKinds(s, e, op);
    case AbortRun(_, _) =>
    case PushResult(_, _, cfg, result, listed) => EntryKinds(cfg, t, result, s.clock, listed, op);
    case SettlePush(slot, intact, listed) =>
      var p := s.pushed[slot];
      CommitKinds(p.cfg, t, p.identity, p.checkpoint, p.entered, intact, s.clock, listed, op);
    case ReportFailure(_, identity, code, listed) => FailureIsQuiet(t, identity, code, s.clock, listed);
    case AskCancel(_, cfg, id, inFlight) => CancelIsQuiet(cfg, t, id, s.clock, inFlight);
    case RegisterWorker(_, cfg, worker, tier, vramMB, connection, generation, listed) =>
      RegisteringIsQuiet(cfg, t, worker, generation, tier, vramMB, connection, s.clock, listed);
    case DropWorker(_, worker, listed) => WorkerMessagesAreQuiet(t, worker, "", 0, s.clock, listed);
    case Beat(_, worker, generation) => WorkerMessagesAreQuiet(t, worker, generation, 0, s.clock, []);
    case FindSilent(_, worker, timeoutMs, listed) => WorkerMessagesAreQuiet(t, worker, "", timeoutMs, s.clock, listed);
    case Collect(_) =>
    case RenewClaim(_, _, _, _, _) =>
    case LetGo(_, _, _) =>
  }

  lemma SubmitKinds(cfg: Config, s: Store, key: Option<IdempotencyKey>, newId: RequestId, now: nat,
                    timeoutMs: Option<nat>, op: Op)
    requires op in Submit(cfg, s, key, newId, now, timeoutMs).ops
    ensures Quiet(op) || (op.Bookkeeping? && op.book.BindKey?) || (op.Requests? && op.request.CreateRequest?)
  {}
}
