/**
 * A run keeps the discipline, keeps the store tidy, stays inside its retry
 * budget, and ends with its request closed.
 */
module RunProofs {
  import opened Options
  import opened RequestStages
  import opened DurableTypes
  import opened Store
  import opened Steps
  import opened Discipline
  import opened Progress
  import opened Effects
  import opened StepSafety
  import opened Boundaries
  import opened Runs

  predicate ChoiceOk(w: World, c: Choice) {
    && (c.pick.Some? ==> c.pick.value in w.store.workers)
    && c.lease !in w.past.issued
  }

  lemma StretchIsSafe(w: World, r: Run, now: nat, c: Choice)
    requires Consistent(w) && RunOk(w.store, r) && ChoiceOk(w, c)
    ensures SafeAll(w, Stretch(w.store, r, now, c).ops)
  {
    hide Apply, Note, SafeAll, DoAll, SegmentHead, SegmentTail, Dispatch, AcceptEntry, AcceptCommit, Recover, Continue,
         EndRun;
    assert WorkersKeyed(w.store);
    HarmlessIsSafe(w, []);
    match r.pc
    case AtSegment(k) => SegmentHeadIsSafe(w, r.id, k, r.total, r.aborted);
    case AtAttempt(k, n) => DispatchIsSafe(r.cfg, w, r.id, k, n, r.aborted, c.pick, c.attemptId, c.lease, now);
    case Executing(_, _, a) =>
      if c.settled.Answered? {
        AcceptEntryIsSafe(r.cfg, w, c.settled.result, now, c.listed);
      } else {
        RecoverIsSafe(r.cfg, w, a, c.settled.code, r.aborted);
      }
    case Validating(_, _, _, identity, checkpoint, entered) =>
      AcceptCommitIsSafe(r.cfg, w, identity, checkpoint, entered, c.intact, now, c.listed);
    case Judged(_, _, a, acceptance) => ContinueIsSafe(r.cfg, w, a, acceptance, r.aborted, c.listed);
    case Delaying(_, _) =>
    case SegmentDone(k, got) => SegmentTailIsSafe(w, r.id, k, got);
    case Ended(thrown) => EndRunIsSafe(w, r.id, thrown, r.kind, now);
    case Finished(_) =>
  }

  lemma StretchKeepsTidy(w: World, r: Run, now: nat, c: Choice)
    requires Consistent(w) && RunOk(w.store, r) && ChoiceOk(w, c) && ListedFor(w.store, r, c)
    requires Tidy(w.store)
    ensures Tidy(Replay(w.store, Stretch(w.store, r, now, c).ops))
  {
    hide Apply, Replay, Tidy, Lists, SegmentHead, SegmentTail, Dispatch, AcceptEntry, AcceptCommit, Recover, Continue,
         EndRun;
    assert WorkersKeyed(w.store);
    NothingKeepsTidy(w.store);
    match r.pc
    case AtSegment(k) => SegmentHeadKeepsTidy(w.store, r.id, k, r.total, r.aborted);
    case AtAttempt(k, n) => DispatchKeepsTidy(r.cfg, w, r.id, k, n, r.aborted, c.pick, c.attemptId, c.lease, now);
    case Executing(_, _, a) =>
      if c.settled.Answered? {
        AcceptEntryKeepsTidy(r.cfg, w, c.settled.result, now, c.listed);
      } else {
        RecoverKeepsTidy(r.cfg, w, a, c.settled.code, r.aborted);
      }
    case Validating(_, _, _, identity, checkpoint, entered) =>
      AcceptCommitKeepsTidy(r.cfg, w, identity, checkpoint, entered, c.intact, now, c.listed);
    case Judged(_, _, a, acceptance) => ContinueKeepsTidy(r.cfg, w, a, acceptance, r.aborted, c.listed);
    case Delaying(_, _) =>
    case SegmentDone(k, got) => SegmentTailKeepsTidy(w, r.id, k, got);
    case Ended(thrown) => EndRunKeepsTidy(w, r.id, thrown, r.kind, now);
    case Finished(_) =>
  }

  lemma NothingKeepsTidy(s: Store)
    requires Tidy(s)
    ensures Tidy(Replay(s, []))
  {}

  // --- Counting writes ---

  predicate Plain(op: Op) { !Appends(op) && !CountsRetry(op) }

  ghost predicate AllPlain(ops: seq<Op>) { forall op :: op in ops ==> Plain(op) }

  lemma {:induction false} CountAppend(a: seq<Op>, b: seq<Op>, p: Op -> bool)
    ensures Count(a + b, p) == Count(a, p) + Count(b, p)
  {
    if a == [] {
      assert a + b == b;
    } else {
      assert (a + b)[1..] == a[1..] + b;
      CountAppend(a[1..], b, p);
    }
  }

  lemma {:induction false} PlainCountsNothing(ops: seq<Op>)
    requires AllPlain(ops)
    ensures Count(ops, Appends) == 0 && Count(ops, CountsRetry) == 0
  {
    if ops != [] {
      assert ops[0] in ops && forall op :: op in ops[1..] ==> op in ops;
      PlainCountsNothing(ops[1..]);
    }
  }

  lemma CountOne(op: Op, p: Op -> bool)
    ensures Count([op], p) == if p(op) then 1 else 0
  {
    assert [op][1..] == [];
  }

  lemma {:induction false} DeletesArePlain(ids: seq<LeaseId>)
    ensures AllPlain(DeleteLeases(ids))
  {
    if ids != [] {
      DeletesArePlain(ids[1..]);
    }
  }

  lemma ClosingIsPlain(s: Store, id: RequestId, stage: Stage, code: ErrorCode)
    ensures AllPlain(Finalize(s, id, stage, code))
  {}

  lemma IsolatingIsPlain(s: Store, x: WorkerId, g: Generation, ids: seq<LeaseId>)
    ensures AllPlain(Isolate(s, x, g, ids))
  {
    DeletesArePlain(ids);
  }

  lemma LoopIsPlain(s: Store, id: RequestId, segment: nat, total: nat, flag: bool)
    ensures AllPlain(SegmentHead(s, id, segment, total, flag).ops)
    ensures AllPlain(SegmentTail(s, id, segment, flag).ops)
  {
    hide Finalize;
    ClosingIsPlain(s, id, Cancelled, UserCancellation);
  }

  lemma AcceptingIsPlain(cfg: Config, s: Store, result: WorkerResult, id: Identity, c: Checkpoint,
                         entered: nat, intact: bool, now: nat, ids: seq<LeaseId>)
    ensures AllPlain(AcceptEntry(cfg, s, result, now, ids).ops)
    ensures AllPlain(AcceptCommit(cfg, s, id, c, entered, intact, now, ids).ops)
  {
    hide Finalize, Isolate;
    ClosingIsPlain(s, id.requestId, Cancelled, UserCancellation);
    IsolatingIsPlain(s, id.workerId, id.generation, ids);
    if result.WorkerResult? {
      var echoed := result.identity;
      ClosingIsPlain(s, echoed.requestId, Cancelled, UserCancellation);
      IsolatingIsPlain(s, echoed.workerId, echoed.generation, ids);
    }
  }

  lemma EndingIsPlain(s: Store, id: RequestId, thrown: Option<ErrorCode>, kind: AbortKind, now: nat)
    ensures AllPlain(EndRun(s, id, thrown, kind, now))
  {
    hide Finalize;
    ClosingIsPlain(s, id, Failed, RuntimeTransient);
    ClosingIsPlain(s, id, Failed, DeadlineExceeded);
    ClosingIsPlain(s, id, Cancelled, UserCancellation);
    if thrown.Some? {
      ClosingIsPlain(s, id, Failed, thrown.value);
    }
  }

  /** A dispatch appends one attempt, exactly when it issues a lease. */
  lemma DispatchAppendsOne(cfg: Config, s: Store, id: RequestId, segment: nat, attempt: nat, aborted: bool,
                           pick: Option<WorkerId>, attemptId: AttemptId, lease: LeaseId, now: nat)
    requires pick.Some? ==> pick.value in s.workers
    ensures var step := Dispatch(cfg, s, id, segment, attempt, aborted, pick, attemptId, lease, now);
            && Count(step.ops, CountsRetry) == 0
            && Count(step.ops, Appends) <= (if step.out.Execute? || step.out.Throw? then 1 else 0)
            && (step.out.Execute? ==> step.out.assignment.identity.requestId == id)
            && (step.out.Execute? || step.out.Sleep? ==> attempt <= cfg.maxRetries)
            && !step.out.ReturnResult?
  {
    hide Finalize, PredecessorUsable;
    var step := Dispatch(cfg, s, id, segment, attempt, aborted, pick, attemptId, lease, now);
    var s1 := Replay(s, Requeue(s, id));
    ClosingIsPlain(s, id, Cancelled, UserCancellation);
    ClosingIsPlain(s1, id, Failed, CheckpointIntegrityMismatch);
    ClosingIsPlain(s1, id, Failed, WorkerDisconnected);
    if !step.out.Execute? && !(step.out.Throw? && step.ops != []) {
      PlainCountsNothing(step.ops);
    } else {
      AssignAppendsOne(cfg, s1, Requeue(s, id), id, segment, s.workers[pick.value], attemptId, lease, now);
    }
  }

  lemma AssignAppendsOne(cfg: Config, s: Store, before: seq<Op>, id: RequestId, segment: nat, x: Worker,
                         attempt: AttemptId, lease: LeaseId, now: nat)
    requires AllPlain(before)
    ensures var ops := before + Assign(cfg, s, id, segment, x, attempt, lease, now).ops;
            Count(ops, Appends) == 1 && Count(ops, CountsRetry) == 0
  {
    var l := Issue(cfg, x, id, segment, attempt, lease, now);
    var put, append := Leases(PutLease(l)), Bookkeeping(AppendAttempt(AttemptOf(l)));
    var ops := Assign(cfg, s, id, segment, x, attempt, lease, now).ops;
    var rest := ops[2..];
    assert ops == [put] + ([append] + rest);
    PlainCountsNothing(before);
    PlainCountsNothing(rest);
    CountAround(before, put, append, rest, Appends);
    CountAround(before, put, append, rest, CountsRetry);
  }

  lemma CountAround(before: seq<Op>, first: Op, second: Op, after: seq<Op>, p: Op -> bool)
    ensures Count(before + ([first] + ([second] + after)), p)
         == Count(before, p) + (if p(first) then 1 else 0) + (if p(second) then 1 else 0) + Count(after, p)
  {
    CountAppend([second], after, p);
    CountAppend([first], [second] + after, p);
    CountAppend(before, [first] + ([second] + after), p);
    CountOne(first, p);
    CountOne(second, p);
  }

  /** A recovered execution counts a retry exactly when it goes on, or throws trying to. */
  lemma RecoverCounts(cfg: Config, s: Store, a: Assignment, code: ErrorCode, aborted: bool)
    ensures var step := Recover(cfg, s, a, code, aborted);
            && Count(step.ops, Appends) == 0
            && Count(step.ops, CountsRetry) <= 1
            && (step.out.Sleep? ==> Count(step.ops, CountsRetry) == 1)
            && (step.out.ReturnNull? ==> Count(step.ops, CountsRetry) == 0)
            && (Count(step.ops, CountsRetry) == 1 ==>
                  && a.identity.requestId in s.requests
                  && s.requests[a.identity.requestId].retryCount < cfg.maxRetries)
            && (step.out.Sleep? || step.out.Throw? || step.out.ReturnNull?)
  {
    hide Finalize, Apply, Replay, Mark, SettleFailure;
    var id := a.identity;
    var r := id.requestId;
    var step := Recover(cfg, s, a, code, aborted);
    var settled := SettleFailure(s, id, code);
    ClosingIsPlain(Replay(s, settled), r, Failed, code);
    SettlingIsPlain(s, id, code);
    PlainCountsNothing(MarkIdle(s, id.workerId, id.generation));
    if !aborted && Retryable(code) && r in s.requests && s.requests[r].retryCount < cfg.maxRetries {
      var away := if Isolatable(code) then MarkDisconnected(s, id.workerId, id.generation) else [];
      var count := Requests(SetRetryCount(r, s.requests[r].retryCount + 1));
      var wait := if s.requests[r].stage == Running then [Requests(Transition(r, Running, RetryWait))] else [];
      PlainCountsNothing(settled + away);
      PlainCountsNothing(wait);
      assert step.ops == (settled + away) + ([count] + wait);
      CountThrough(settled + away, count, wait, Appends);
      CountThrough(settled + away, count, wait, CountsRetry);
    } else if !aborted {
      PlainCountsNothing(settled + Finalize(Replay(s, settled), r, Failed, code));
    }
  }

  lemma SettlingIsPlain(s: Store, id: Identity, code: ErrorCode)
    ensures AllPlain(SettleFailure(s, id, code))
    ensures AllPlain(MarkIdle(s, id.workerId, id.generation))
    ensures AllPlain(MarkDisconnected(s, id.workerId, id.generation))
  {}

  lemma CountThrough(before: seq<Op>, middle: Op, after: seq<Op>, p: Op -> bool)
    ensures Count(before + ([middle] + after), p) == Count(before, p) + (if p(middle) then 1 else 0) + Count(after, p)
  {
    CountAppend([middle], after, p);
    CountAppend(before, [middle] + after, p);
    CountOne(middle, p);
  }

  lemma ContinueCounts(cfg: Config, s: Store, a: Assignment, acceptance: Acceptance, aborted: bool, ids: seq<LeaseId>)
    ensures var step := Continue(cfg, s, a, acceptance, aborted, ids);
            && Count(step.ops, Appends) == 0
            && Count(step.ops, CountsRetry) == 0
            && (step.out.ReturnNull? || step.out.ReturnResult? || step.out.Throw?)
  {
    hide Finalize, Isolate, Apply, Replay;
    var id := a.identity;
    var r := id.requestId;
    var idle := MarkIdle(s, id.workerId, id.generation);
    var s1 := Replay(s, idle);
    var step := Continue(cfg, s, a, acceptance, aborted, ids);
    ClosingIsPlain(s1, r, Cancelled, UserCancellation);
    IsolatingIsPlain(s1, id.workerId, id.generation, ids);
    match acceptance
    case AcceptedFinal => PlainCountsNothing(idle);
    case Duplicate => PlainCountsNothing(idle);
    case AcceptedCheckpoint(_) =>
      if TransitionFires(s, r, Running) {
        PlainCountsNothing(step.ops);
      } else {
        RecoverViolationIsPlain(cfg, s1, a, aborted);
        PlainCountsNothing(step.ops);
      }
    case AcceptCancelled => PlainCountsNothing(step.ops);
    case _ =>
      ClosingIsPlain(Replay(s, idle + Isolate(s1, id.workerId, id.generation, ids)), r, Failed,
                     AcceptanceCode(acceptance));
      PlainCountsNothing(step.ops);
  }

  /** A stage violation is not retried. */
  lemma RecoverViolationIsPlain(cfg: Config, s: Store, a: Assignment, aborted: bool)
    ensures var step := Recover(cfg, s, a, StateTransitionViolation, aborted);
            AllPlain(step.ops) && (step.out.Throw? || step.out.ReturnNull?)
  {
    hide Finalize, Replay;
    var id := a.identity;
    ClosingIsPlain(Replay(s, SettleFailure(s, id, StateTransitionViolation)), id.requestId, Failed,
                   StateTransitionViolation);
  }

  // --- The retry counter of the store ---

  predicate RetriesOnly(ops: seq<Op>, id: RequestId) {
    forall op :: op in ops && CountsRetry(op) ==> op.request.id == id
  }

  lemma RetryCountStep(w: World, op: Op, id: RequestId)
    requires Safe(w, op) && id in w.store.requests
    requires CountsRetry(op) ==> op.request.id == id
    ensures id in Apply(w.store, op).requests
    ensures Apply(w.store, op).requests[id].retryCount
         == w.store.requests[id].retryCount + (if CountsRetry(op) then 1 else 0)
  {}

  /** The stored counter follows the retries written, one by one. */
  lemma {:induction false} RetryCountFollows(w: World, ops: seq<Op>, id: RequestId)
    requires SafeAll(w, ops) && id in w.store.requests && RetriesOnly(ops, id)
    ensures id in DoAll(w, ops).store.requests
    ensures DoAll(w, ops).store.requests[id].retryCount == w.store.requests[id].retryCount + Count(ops, CountsRetry)
    decreases |ops|
  {
    if ops != [] {
      hide Apply, Note, Safe;
      RetryCountStep(w, ops[0], id);
      RetryCountFollows(Do(w, ops[0]), ops[1..], id);
    }
  }

  // --- What one stretch does to the run ---

  /** Which control points a stretch may lead to, and at what cost. */
  predicate StretchMoves(s: Store, r: Run, step: Step<Pc>) {
    && var appended, retried := Count(step.ops, Appends), Count(step.ops, CountsRetry);
    && RetriesOnly(step.ops, r.id)
    && retried <= 1
    && (retried == 1 ==> r.id in s.requests && s.requests[r.id].retryCount < r.cfg.maxRetries)
    && match r.pc
       case AtSegment(k) =>
         appended == 0 && retried == 0 && (step.out.Ended? || (step.out == AtAttempt(k, 0) && k < r.total))
       case AtAttempt(k, n) =>
         retried == 0 && AfterDispatch(r, k, n, step.out, appended)
       case Executing(k, n, a) => appended == 0 && AfterExecution(r.pc, step.out, retried)
       case Validating(k, n, a, _, _, _) =>
         appended == 0 && retried == 0 && step.out.Judged? && SamePlace(r.pc, step.out)
       case Judged(k, n, a, _) => appended == 0 && AfterExecution(r.pc, step.out, retried)
       case Delaying(k, n) => appended == 0 && retried == 0 && step.out == AtAttempt(k, n + 1)
       case SegmentDone(k, got) =>
         appended == 0 && retried == 0 && (step.out.Ended? || (step.out == AtSegment(k + 1) && got))
       case Ended(_) => appended == 0 && retried == 0 && step.out == Finished(Lost(r))
       case Finished(_) => appended == 0 && retried == 0 && step.out == r.pc
  }

  predicate AfterDispatch(r: Run, k: nat, n: nat, to: Pc, appended: nat) {
    match to
    case Executing(k', n', a) =>
      k' == k && n' == n && n <= r.cfg.maxRetries && appended <= 1 && a.identity.requestId == r.id
    case Delaying(k', n') => k' == k && n' == n && n <= r.cfg.maxRetries && appended == 0
    case SegmentDone(k', got) => k' == k && !got && appended == 0
    case Ended(_) => appended <= 1
    case _ => false
  }

  predicate SamePlace(a: Pc, b: Pc)
    requires Pending(a) && Pending(b)
  {
    a.segment == b.segment && a.attempt == b.attempt && a.assignment == b.assignment
  }

  predicate AfterExecution(from: Pc, to: Pc, retried: nat)
    requires Pending(from)
  {
    match to
    case Judged(_, _, _, _) => from.Executing? && SamePlace(from, to) && retried == 0
    case Validating(_, _, _, _, _, _) => from.Executing? && SamePlace(from, to) && retried == 0
    case Delaying(k, n) => k == from.segment && n == from.attempt && retried == 1
    case SegmentDone(k, _) => k == from.segment && retried == 0
    case Ended(_) => true
    case _ => false
  }

  lemma PlainRetriesNothing(ops: seq<Op>, id: RequestId)
    requires Count(ops, CountsRetry) == 0
    ensures RetriesOnly(ops, id)
  {
    if ops != [] {
      PlainRetriesNothing(ops[1..], id);
      assert forall op :: op in ops ==> op == ops[0] || op in ops[1..];
    }
  }

  lemma RecoverRetriesOwn(cfg: Config, s: Store, a: Assignment, code: ErrorCode, aborted: bool)
    ensures RetriesOnly(Recover(cfg, s, a, code, aborted).ops, a.identity.requestId)
  {
    hide Apply, Replay, Finalize, SettleFailure, Mark;
    ClosingIsPlain(Replay(s, SettleFailure(s, a.identity, code)), a.identity.requestId, Failed, code);
    SettlingIsPlain(s, a.identity, code);
  }

  lemma StretchMovesOn(s: Store, r: Run, now: nat, c: Choice)
    requires c.pick.Some? ==> c.pick.value in s.workers
    requires PcInRange(r)
    ensures StretchMoves(s, r, Stretch(s, r, now, c))
  {
    hide Apply, Replay, Count, SegmentHead, SegmentTail, Dispatch, AcceptEntry, AcceptCommit, Recover, Continue, EndRun,
         RetriesOnly;
    var ops := Stretch(s, r, now, c).ops;
    PlainCountsNothing([]);
    match r.pc {
    case AtSegment(k) =>
      HeadEnters(s, r.id, k, r.total, r.aborted);
      LoopIsPlain(s, r.id, k, r.total, r.aborted);
      PlainCountsNothing(ops);
    case AtAttempt(k, n) =>
      DispatchAppendsOne(r.cfg, s, r.id, k, n, r.aborted, c.pick, c.attemptId, c.lease, now);
    case Executing(k, n, a) =>
      if c.settled.Answered? {
        AcceptingIsPlain(r.cfg, s, c.settled.result, a.identity, AnyCheckpoint(), 0, true, now, c.listed);
        PlainCountsNothing(ops);
      } else {
        RecoverCounts(r.cfg, s, a, c.settled.code, r.aborted);
        RecoverRetriesOwn(r.cfg, s, a, c.settled.code, r.aborted);
      }
    case Validating(k, n, a, identity, checkpoint, entered) =>
      AcceptingIsPlain(r.cfg, s, BadEnvelope, identity, checkpoint, entered, c.intact, now, c.listed);
      PlainCountsNothing(ops);
    case Judged(k, n, a, acceptance) => ContinueCounts(r.cfg, s, a, acceptance, r.aborted, c.listed);
    case Delaying(k, n) =>
    case SegmentDone(k, got) =>
      TailEnters(s, r.id, k, got);
      LoopIsPlain(s, r.id, k, r.total, got);
      PlainCountsNothing(ops);
    case Ended(thrown) =>
      EndingIsPlain(s, r.id, thrown, r.kind, now);
      PlainCountsNothing(ops);
    case Finished(_) =>
    }
    if Count(ops, CountsRetry) == 0 {
      PlainRetriesNothing(ops, r.id);
    }
  }

  lemma HeadEnters(s: Store, id: RequestId, segment: nat, total: nat, aborted: bool)
    ensures SegmentHead(s, id, segment, total, aborted).out.EnterSegment? ==> segment < total
  {}

  lemma TailEnters(s: Store, id: RequestId, segment: nat, got: bool)
    ensures SegmentTail(s, id, segment, got).out.EnterSegment? ==> got
    ensures !SegmentTail(s, id, segment, got).out.LoopThrow?
  {}

  function AnyCheckpoint(): Checkpoint { Checkpoint("", "", 0, "", "", "", "", "", 0, 0, []) }

  // --- A run stays inside its range and its budget ---

  lemma StretchStaysInRange(s: Store, r: Run, now: nat, c: Choice)
    requires c.pick.Some? ==> c.pick.value in s.workers
    requires PcInRange(r) && r.appended <= Allowance(r) && r.retried <= r.cfg.maxRetries
    requires r.id in s.requests && r.retried <= s.requests[r.id].retryCount
    ensures var next := Advance(s, r, now, c).out;
            PcInRange(next) && next.appended <= Allowance(next) && next.retried <= r.cfg.maxRetries
  {
    hide Stretch, Count, RetriesOnly;
    StretchMovesOn(s, r, now, c);
  }

  /** The records behind the run only move forward, and its retries are counted. */
  lemma StretchKeepsRecord(w: World, r: Run, ops: seq<Op>)
    requires Consistent(w) && RunOk(w.store, r) && SafeAll(w, ops) && RetriesOnly(ops, r.id)
    ensures var t := DoAll(w, ops).store;
            && r.id in t.requests
            && r.total == t.requests[r.id].totalSegments
            && t.requests[r.id].stage != Accepted
            && r.retried + Count(ops, CountsRetry) <= t.requests[r.id].retryCount
  {
    hide Apply, Note, Consistent;
    RunsAdvance(w, ops);
    RetryCountFollows(w, ops, r.id);
  }

  lemma ClosingCloses(s: Store, id: RequestId, thrown: Option<ErrorCode>, kind: AbortKind)
    requires id in s.requests && s.requests[id].stage != Accepted
    requires !(thrown == Some(UserCancellation) && kind == ByOwnershipLoss)
    ensures var t := Replay(s, Closing(s, id, thrown, kind)); id in t.requests && Terminal(t.requests[id].stage)
  {
    hide Apply, Replay, Finalize;
    FinalizeEffect(s, id, Failed, RuntimeTransient);
    FinalizeEffect(s, id, Failed, DeadlineExceeded);
    FinalizeEffect(s, id, Cancelled, UserCancellation);
    if thrown.Some? {
      FinalizeEffect(s, id, Failed, thrown.value);
    }
  }

  /** Closing a run that was not superseded closes its request. */
  lemma EndRunCloses(w: World, r: Run, now: nat)
    requires Consistent(w) && RunOk(w.store, r) && r.pc.Ended? && !Lost(r)
    ensures var t := DoAll(w, EndRun(w.store, r.id, r.pc.thrown, r.kind, now)).store;
            r.id in t.requests && Terminal(t.requests[r.id].stage)
  {
    hide Apply, Note, Consistent, Closing, Acknowledge, SafeAll, DoAll, Replay;
    var s := w.store;
    var closed := Closing(s, r.id, r.pc.thrown, r.kind);
    var ack := Acknowledge(Replay(s, closed), r.id, now);
    EndRunIsSafe(w, r.id, r.pc.thrown, r.kind, now);
    ClosingCloses(s, r.id, r.pc.thrown, r.kind);
    SafeAllAppend(w, closed, ack);
    DoAllAppend(w, closed, ack);
    DoAllReplays(w, closed);
    DisciplinePreserves(w, closed);
    RunsAdvance(DoAll(w, closed), ack);
  }

  lemma StretchKeepsRunOk(w: World, r: Run, now: nat, c: Choice)
    requires Consistent(w) && RunOk(w.store, r) && ChoiceOk(w, c)
    ensures var step := Advance(w.store, r, now, c);
            RunOk(DoAll(w, step.ops).store, step.out)
  {
    hide Apply, Note, Consistent, SafeAll, DoAll, Replay, Stretch, RetriesOnly, Count, EndRun;
    StretchIsSafe(w, r, now, c);
    StretchMovesOn(w.store, r, now, c);
    StretchStaysInRange(w.store, r, now, c);
    var ops := Stretch(w.store, r, now, c).ops;
    StretchKeepsRecord(w, r, ops);
    EndingStretch(w.store, r, now, c);
    NothingHappens(w);
    if r.pc.Ended? && !Lost(r) {
      EndRunCloses(w, r, now);
    }
  }

  lemma EndingStretch(s: Store, r: Run, now: nat, c: Choice)
    requires c.pick.Some? ==> c.pick.value in s.workers
    ensures r.pc.Ended? ==> Stretch(s, r, now, c).ops == EndRun(s, r.id, r.pc.thrown, r.kind, now)
    ensures r.pc.Finished? ==> Stretch(s, r, now, c).ops == []
  {}

  lemma NothingHappens(w: World)
    ensures DoAll(w, []) == w
  {}

  /** Another coordinator's writes leave the run's claims about the store true. */
  lemma OthersKeepRunOk(w: World, r: Run, ops: seq<Op>)
    requires Consistent(w) && RunOk(w.store, r) && SafeAll(w, ops)
    ensures RunOk(DoAll(w, ops).store, r)
  {
    hide Apply, Note, Consistent, SafeAll, DoAll;
    RunsAdvance(w, ops);
  }

  // --- A run ends ---

  /** What one segment may cost: five stretches for each attempt, and the loop's own. */
  function SegmentFuel(maxRetries: nat): nat { 6 * (maxRetries + 2) + 3 }

  function LoopFuel(r: Run, segment: nat): int { (r.total - segment) * SegmentFuel(r.cfg.maxRetries) }

  /** An upper bound on the stretches a run still has to go. */
  function Fuel(r: Run): int
  {
    match r.pc
    case Finished(_) => 0
    case Ended(_) => 1
    case AtSegment(k) => LoopFuel(r, k) + 2
    case SegmentDone(k, _) => LoopFuel(r, k + 1) + 3
    case Delaying(k, n) => LoopFuel(r, k + 1) + 6 + 6 * (r.cfg.maxRetries - n)
    case Judged(k, n, _, _) => LoopFuel(r, k + 1) + 7 + 6 * (r.cfg.maxRetries - n)
    case Validating(k, n, _, _, _, _) => LoopFuel(r, k + 1) + 8 + 6 * (r.cfg.maxRetries - n)
    case Executing(k, n, _) => LoopFuel(r, k + 1) + 9 + 6 * (r.cfg.maxRetries - n)
    case AtAttempt(k, n) => LoopFuel(r, k + 1) + 10 + 6 * (r.cfg.maxRetries - n)
  }

  lemma OneMore(a: int, b: int)
    ensures a * b == (a - 1) * b + b
  {}

  lemma NotNegative(a: int, b: int)
    requires a >= 0 && b >= 0
    ensures a * b >= 0
  {}

  lemma LoopFuelSteps(r: Run, segment: nat)
    requires segment < r.total
    ensures LoopFuel(r, segment) == LoopFuel(r, segment + 1) + SegmentFuel(r.cfg.maxRetries)
    ensures LoopFuel(r, segment + 1) >= 0
  {
    hide SegmentFuel;
    OneMore(r.total - segment, SegmentFuel(r.cfg.maxRetries));
    NotNegative(r.total - (segment + 1), SegmentFuel(r.cfg.maxRetries));
  }

  lemma FuelIsNatural(r: Run)
    requires PcInRange(r)
    ensures Fuel(r) >= 0
    ensures Fuel(r) == 0 ==> r.pc.Finished?
  {
    hide LoopFuel;
    match r.pc
    case AtSegment(k) => LoopFuelNatural(r, k);
    case AtAttempt(k, _) => LoopFuelNatural(r, k + 1);
    case Executing(k, _, _) => LoopFuelNatural(r, k + 1);
    case Validating(k, _, _, _, _, _) => LoopFuelNatural(r, k + 1);
    case Judged(k, _, _, _) => LoopFuelNatural(r, k + 1);
    case Delaying(k, _) => LoopFuelNatural(r, k + 1);
    case SegmentDone(k, _) => LoopFuelNatural(r, k + 1);
    case Ended(_) =>
    case Finished(_) =>
  }

  lemma LoopFuelNatural(r: Run, segment: nat)
    requires segment <= r.total
    ensures LoopFuel(r, segment) >= 0
  {
    NotNegative(r.total - segment, SegmentFuel(r.cfg.maxRetries));
  }

  /** Every stretch of an unfinished run uses up fuel, whatever it meets in the store. */
  lemma StretchBurnsFuel(s: Store, r: Run, now: nat, c: Choice)
    requires c.pick.Some? ==> c.pick.value in s.workers
    requires PcInRange(r) && !r.pc.Finished?
    ensures Fuel(Advance(s, r, now, c).out) < Fuel(r)
  {
    hide Stretch, Count, RetriesOnly, LoopFuel;
    StretchMovesOn(s, r, now, c);
    var next := Advance(s, r, now, c).out;
    if r.pc.AtSegment? && r.pc.segment < r.total {
      LoopFuelSteps(r, r.pc.segment);
    } else if r.pc.AtSegment? {
      LoopFuelNatural(r, r.pc.segment);
    } else if r.pc.SegmentDone? {
      LoopFuelNatural(r, r.pc.segment + 1);
    } else if Place(r.pc).Some? {
      LoopFuelNatural(r, Place(r.pc).value.0 + 1);
    }
    SameFuel(r, next);
  }

  lemma SameFuel(r: Run, next: Run)
    requires next.total == r.total && next.cfg == r.cfg
    ensures forall k: nat :: LoopFuel(next, k) == LoopFuel(r, k)
  {}
}
