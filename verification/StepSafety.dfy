/** Every write of every atomic step respects the discipline, in the state it meets. */
module StepSafety {
  import opened Options
  import opened RequestStages
  import opened DurableTypes
  import opened Store
  import opened RecoveryPlan
  import opened Steps
  import opened Discipline
  import opened Effects

  /** Writes that are safe whatever the state. */
  predicate Harmless(op: Op) {
    match op
    case Requests(o) => o.SetError?
    case Leases(o) => o.DeleteLease?
    case Checkpoints(o) => !o.PutCheckpoint?
    case Workers(o) => !o.PutWorker?
    case Bookkeeping(_) => true
    case _ => false
  }

  lemma {:induction false} HarmlessIsSafe(w: World, ops: seq<Op>)
    requires forall i :: 0 <= i < |ops| ==> Harmless(ops[i])
    ensures SafeAll(w, ops)
    decreases |ops|
  {
    if ops != [] {
      HarmlessIsSafe(Do(w, ops[0]), ops[1..]);
    }
  }

  lemma {:induction false} DeletesAreHarmless(ids: seq<LeaseId>)
    ensures forall i :: 0 <= i < |ids| ==> Harmless(DeleteLeases(ids)[i])
  {
    if ids != [] {
      DeletesAreHarmless(ids[1..]);
    }
  }

  lemma Join(w: World, a: seq<Op>, b: seq<Op>)
    requires SafeAll(w, a) && SafeAll(DoAll(w, a), b)
    ensures SafeAll(w, a + b)
  {
    SafeAllAppend(w, a, b);
  }

  lemma Lead(w: World, op: Op, rest: seq<Op>)
    requires Safe(w, op) && SafeAll(Do(w, op), rest)
    ensures SafeAll(w, [op] + rest)
  {
    assert ([op] + rest)[1..] == rest;
  }

  lemma Single(w: World, op: Op)
    ensures DoAll(w, [op]) == Do(w, op)
    ensures SafeAll(w, [op]) == Safe(w, op)
  {
    hide Apply, Note, Safe;
    assert [op][1..] == [];
  }

  // --- Shared stretches ---

  lemma FinalizeIsSafe(w: World, id: RequestId, stage: Stage, code: ErrorCode)
    requires stage == Failed || stage == Cancelled
    ensures SafeAll(w, Finalize(w.store, id, stage, code))
  {
    var ops := Finalize(w.store, id, stage, code);
    if ops != [] {
      var rest := SetErrorIfFailed(id, stage, code) + [Checkpoints(DeleteCheckpoints(id))] + Reclaim(w.store, id);
      assert ops == [Requests(Transition(id, w.store.requests[id].stage, stage))] + rest;
      HarmlessIsSafe(Do(w, ops[0]), rest);
      Lead(w, ops[0], rest);
    }
  }

  lemma FinalizeAfter(w: World, first: seq<Op>, id: RequestId, stage: Stage, code: ErrorCode)
    requires SafeAll(w, first)
    requires stage == Failed || stage == Cancelled
    ensures SafeAll(w, first + Finalize(Replay(w.store, first), id, stage, code))
  {
    DoAllReplays(w, first);
    FinalizeIsSafe(DoAll(w, first), id, stage, code);
    Join(w, first, Finalize(Replay(w.store, first), id, stage, code));
  }

  lemma IsolateIsHarmless(s: Store, x: WorkerId, g: Generation, ids: seq<LeaseId>)
    ensures forall i :: 0 <= i < |Isolate(s, x, g, ids)| ==> Harmless(Isolate(s, x, g, ids)[i])
  {
    DeletesAreHarmless(ids);
  }

  // --- Steps of a run ---

  lemma SubmitIsSafe(cfg: Config, w: World, key: Option<IdempotencyKey>, newId: RequestId, now: nat,
                     timeoutMs: Option<nat>)
    requires newId !in w.store.requests
    ensures SafeAll(w, Submit(cfg, w.store, key, newId, now, timeoutMs).ops)
  {
    var ops := Submit(cfg, w.store, key, newId, now, timeoutMs).ops;
    if ops != [] {
      var bind := if key.Some? then [Bookkeeping(BindKey(key.value, newId))] else [];
      var create := Requests(CreateRequest(NewRequest(cfg, newId, now, timeoutMs)));
      var queue := Requests(Transition(newId, Accepted, Queued));
      HarmlessIsSafe(w, bind);
      var v := DoAll(w, bind);
      if key.Some? {
        Single(w, bind[0]);
      }
      assert newId !in v.store.requests;
      Lead(Do(v, create), queue, []);
      assert [queue] + [] == [queue];
      Lead(v, create, [queue]);
      Join(w, bind, [create] + [queue]);
      assert ops == bind + ([create] + [queue]);
    }
  }

  lemma RequeueIsSafe(w: World, id: RequestId)
    ensures SafeAll(w, Requeue(w.store, id))
  {
    if Requeue(w.store, id) != [] {
      Lead(w, Requests(Transition(id, RetryWait, Queued)), []);
      assert [Requests(Transition(id, RetryWait, Queued))] + [] == Requeue(w.store, id);
    }
  }

  /** Queued to leased to running, then the worker is marked. */
  lemma StartIsSafe(w: World, id: RequestId, busy: seq<Op>)
    requires forall i :: 0 <= i < |busy| ==> Harmless(busy[i])
    ensures SafeAll(w, [Requests(Transition(id, Queued, Leased)), Requests(Transition(id, Leased, Running))] + busy)
  {
    var take, start := Requests(Transition(id, Queued, Leased)), Requests(Transition(id, Leased, Running));
    assert Safe(w, take) && Safe(Do(w, take), start);
    hide Apply, Note, Safe;
    HarmlessIsSafe(Do(Do(w, take), start), busy);
    Lead(Do(w, take), start, busy);
    Lead(w, take, [start] + busy);
    assert [take, start] + busy == [take] + ([start] + busy);
  }

  lemma AssignIsSafe(cfg: Config, w: World, id: RequestId, segment: nat, x: Worker,
                     attempt: AttemptId, lease: LeaseId, now: nat)
    requires LeaseSafe(w, Issue(cfg, x, id, segment, attempt, lease, now))
    ensures SafeAll(w, Assign(cfg, w.store, id, segment, x, attempt, lease, now).ops)
  {
    var l := Issue(cfg, x, id, segment, attempt, lease, now);
    var put, append := Leases(PutLease(l)), Bookkeeping(AppendAttempt(AttemptOf(l)));
    var busy := Mark(w.store, x.id, x.generation, Busy, Some(segment));
    assert Safe(w, put) && Safe(Do(w, put), append);
    hide Apply, Note, SafeAll, DoAll, LeaseSafe, Safe;
    var v := Do(Do(w, put), append);
    var rest := if TransitionFires(w.store, id, Queued)
      then [Requests(Transition(id, Queued, Leased)), Requests(Transition(id, Leased, Running))] + busy else [];
    StartIsSafe(v, id, busy);
    HarmlessIsSafe(v, []);
    Lead(Do(w, put), append, rest);
    Lead(w, put, [append] + rest);
    assert Assign(cfg, w.store, id, segment, x, attempt, lease, now).ops == [put] + ([append] + rest);
  }

  lemma RequeueKeeps(s: Store, id: RequestId)
    requires id in s.requests && !Terminal(s.requests[id].stage)
    ensures var t := Replay(s, Requeue(s, id));
            && t.requests.Keys == s.requests.Keys
            && !Terminal(t.requests[id].stage)
            && t.requests[id].totalSegments == s.requests[id].totalSegments
            && t == s.(requests := t.requests)
  {
    assert Replay(s, []) == s;
    ReplaySnoc(s, [], Requests(Transition(id, RetryWait, Queued)));
    assert [] + [Requests(Transition(id, RetryWait, Queued))] == [Requests(Transition(id, RetryWait, Queued))];
  }

  predicate DispatchInputs(w: World, id: RequestId, segment: nat, pick: Option<WorkerId>, lease: LeaseId) {
    && (id in w.store.requests ==> segment < w.store.requests[id].totalSegments)
    && (pick.Some? ==> pick.value in w.store.workers && w.store.workers[pick.value].id == pick.value)
    && lease !in w.past.issued
  }

  lemma DispatchIsSafe(cfg: Config, w: World, id: RequestId, segment: nat, attempt: nat, aborted: bool,
                       pick: Option<WorkerId>, attemptId: AttemptId, lease: LeaseId, now: nat)
    requires DispatchInputs(w, id, segment, pick, lease)
    ensures SafeAll(w, Dispatch(cfg, w.store, id, segment, attempt, aborted, pick, attemptId, lease, now).ops)
  {
    hide Apply, Note, SafeAll, DoAll, Finalize, Assign;
    var s := w.store;
    if attempt > cfg.maxRetries || aborted || id !in s.requests || Terminal(s.requests[id].stage) {
      HarmlessIsSafe(w, []);
    } else if id in s.cancellations {
      FinalizeIsSafe(w, id, Cancelled, UserCancellation);
    } else {
      var requeue := Requeue(s, id);
      RequeueIsSafe(w, id);
      RequeueKeeps(s, id);
      DoAllReplays(w, requeue);
      var v := DoAll(w, requeue);
      if !PredecessorUsable(s, cfg, id, segment, now) {
        var drop := DropExpired(s, cfg, id, segment);
        HarmlessIsSafe(v, drop);
        FinalizeFromEarlier(v, drop, v.store, id, CheckpointIntegrityMismatch);
        Join(w, requeue, drop + Finalize(v.store, id, Failed, CheckpointIntegrityMismatch));
        assert requeue + drop + Finalize(v.store, id, Failed, CheckpointIntegrityMismatch)
            == requeue + (drop + Finalize(v.store, id, Failed, CheckpointIntegrityMismatch));
      } else if pick.None? {
        FinalizeIsSafe(v, id, Failed, WorkerDisconnected);
        Join(w, requeue, Finalize(v.store, id, Failed, WorkerDisconnected));
      } else {
        var x := s.workers[pick.value];
        RequeuePast(w, id);
        assert LeaseSafe(v, Issue(cfg, x, id, segment, attemptId, lease, now));
        AssignIsSafe(cfg, v, id, segment, x, attemptId, lease, now);
        Join(w, requeue, Assign(cfg, v.store, id, segment, x, attemptId, lease, now).ops);
      }
    }
  }

  lemma RequeuePast(w: World, id: RequestId)
    ensures DoAll(w, Requeue(w.store, id)).past.issued == w.past.issued
  {
    if Requeue(w.store, id) != [] {
      var op := Requests(Transition(id, RetryWait, Queued));
      assert [op][1..] == [];
      assert DoAll(w, [op]) == DoAll(Do(w, op), []);
    }
  }

  /** Finalising with a plan made just before one checkpoint was dropped. */
  lemma FinalizeFromEarlier(w: World, drop: seq<Op>, s: Store, id: RequestId, code: ErrorCode)
    requires w.store == s
    requires |drop| <= 1 && forall i :: 0 <= i < |drop| ==> drop[i].Checkpoints? && drop[i].checkpoint.DeleteCheckpoint?
    ensures SafeAll(w, drop + Finalize(s, id, Failed, code))
  {
    HarmlessIsSafe(w, drop);
    var v := DoAll(w, drop);
    if drop != [] {
      assert drop == [drop[0]];
      Single(w, drop[0]);
    }
    assert Finalize(s, id, Failed, code) == Finalize(v.store, id, Failed, code);
    FinalizeIsSafe(v, id, Failed, code);
    Join(w, drop, Finalize(s, id, Failed, code));
  }

  lemma CompleteIsSafe(w: World, id: Identity, total: nat, tokens: seq<nat>, text: string)
    requires CommitSafe(w.store, id.requestId, Running, Result(id.requestId, tokens, text, total))
    ensures SafeAll(w, Complete(w.store, id, total, tokens, text).ops)
  {
    var r := id.requestId;
    var ops := Complete(w.store, id, total, tokens, text).ops;
    if r !in w.store.results && TransitionFires(w.store, r, Running) {
      HarmlessIsSafe(Do(w, ops[0]), ops[1..]);
    } else {
      HarmlessIsSafe(w, ops);
    }
  }

  lemma AcceptEntryIsSafe(cfg: Config, w: World, result: WorkerResult, now: nat, ids: seq<LeaseId>)
    ensures SafeAll(w, AcceptEntry(cfg, w.store, result, now, ids).ops)
  {
    hide Apply, Note, SafeAll, DoAll, Finalize, Isolate, Complete;
    HarmlessIsSafe(w, []);
    if result.WorkerResult? {
      var id := result.identity;
      FinalizeIsSafe(w, id.requestId, Cancelled, UserCancellation);
      IsolateIsHarmless(w.store, id.workerId, id.generation, ids);
      HarmlessIsSafe(w, Isolate(w.store, id.workerId, id.generation, ids));
      if id.requestId in w.store.requests && id.requestId !in w.store.cancellations
         && Match(w.store, id, now).None? && id.segment + 1 == w.store.requests[id.requestId].totalSegments
         && result.produced.Output? {
        CompleteIsSafe(w, id, w.store.requests[id.requestId].totalSegments, result.produced.tokens,
                       result.produced.text);
      }
    }
  }

  /** The identity that matched before the checkpoint was stored matches after. */
  lemma ReclaimStillMatches(s: Store, id: Identity, c: Checkpoint, now: nat)
    ensures Match(Replay(s, Relay(id, c)), id, now) == Match(s, id, now)
  {
    var put, patch := Relay(id, c)[0], Relay(id, c)[1];
    ReplayLead(s, put, [patch]);
    ReplaySingle(Apply(s, put), patch);
    assert [put] + [patch] == Relay(id, c);
  }

  lemma AcceptCommitIsSafe(cfg: Config, w: World, id: Identity, c: Checkpoint, entered: nat, intact: bool,
                           now: nat, ids: seq<LeaseId>)
    ensures SafeAll(w, AcceptCommit(cfg, w.store, id, c, entered, intact, now, ids).ops)
  {
    hide Apply, Note, SafeAll, DoAll, Replay, Finalize, Isolate;
    var ops := AcceptCommit(cfg, w.store, id, c, entered, intact, now, ids).ops;
    var r := id.requestId;
    var isolate := Isolate(w.store, id.workerId, id.generation, ids);
    IsolateIsHarmless(w.store, id.workerId, id.generation, ids);
    HarmlessIsSafe(w, []);
    if EnvelopeMatches(cfg, id, c, entered) && intact && r !in w.store.cancellations
       && Match(w.store, id, Max(entered, now)).None? && TransitionFires(w.store, r, Running) {
      var put := Checkpoints(PutCheckpoint(c));
      assert Safe(w, put);
      ReclaimStillMatches(w.store, id, c, Max(entered, now));
      var done := [Bookkeeping(UpdateAttempt(r, id.attemptId, AttemptCompleted, None)),
                   Leases(DeleteLease(id.leaseId))];
      HarmlessIsSafe(w, isolate);
      HarmlessIsSafe(Do(w, put), done);
      Lead(w, put, done);
      assert ops == [] || ops == isolate || ops == [put] + done;
    } else {
      FinalizeIsSafe(w, r, Cancelled, UserCancellation);
      HarmlessIsSafe(w, isolate);
    }
  }

  /** Bookkeeping that leaves the requests alone. */
  predicate Sideline(op: Op) {
    match op
    case Bookkeeping(_) => true
    case Leases(o) => o.DeleteLease?
    case Workers(o) => !o.PutWorker?
    case _ => false
  }

  lemma {:induction false} SidelineKeepsRequests(w: World, ops: seq<Op>)
    requires forall i :: 0 <= i < |ops| ==> Sideline(ops[i])
    ensures DoAll(w, ops).store.requests == w.store.requests
    ensures DoAll(w, ops).store.cancellations == w.store.cancellations
    ensures DoAll(w, ops).store.checkpoints == w.store.checkpoints
    ensures DoAll(w, ops).past == w.past
    ensures SafeAll(w, ops)
    decreases |ops|
  {
    if ops != [] {
      SidelineKeepsRequests(Do(w, ops[0]), ops[1..]);
    }
  }

  lemma RetryIsSafe(w: World, first: seq<Op>, r: RequestId)
    requires SafeAll(w, first)
    requires DoAll(w, first).store.requests == w.store.requests
    requires r in w.store.requests
    ensures var count := Requests(SetRetryCount(r, w.store.requests[r].retryCount + 1));
            && SafeAll(w, first + [count])
            && SafeAll(w, first + [count] + [Requests(Transition(r, Running, RetryWait))])
  {
    hide Apply, Note, SafeAll, DoAll;
    var count := Requests(SetRetryCount(r, w.store.requests[r].retryCount + 1));
    var wait := Requests(Transition(r, Running, RetryWait));
    var v := DoAll(w, first);
    Single(v, count);
    Single(Do(v, count), wait);
    Lead(v, count, [wait]);
    Join(w, first, [count]);
    Join(w, first, [count] + [wait]);
    assert first + ([count] + [wait]) == first + [count] + [wait];
  }

  lemma SettlingIsSideline(s: Store, id: Identity, code: ErrorCode)
    ensures forall op :: op in SettleFailure(s, id, code) ==> Sideline(op)
    ensures forall op :: op in SettleFailure(s, id, code) + MarkDisconnected(s, id.workerId, id.generation) ==>
              Sideline(op)
  {}

  lemma SettlingIsSafe(w: World, id: Identity, code: ErrorCode, away: seq<Op>)
    requires away == [] || away == MarkDisconnected(w.store, id.workerId, id.generation)
    ensures SafeAll(w, MarkIdle(w.store, id.workerId, id.generation))
    ensures SafeAll(w, SettleFailure(w.store, id, code))
    ensures SafeAll(w, SettleFailure(w.store, id, code) + away)
    ensures DoAll(w, SettleFailure(w.store, id, code) + away).store.requests == w.store.requests
  {
    hide Apply, Note, SafeAll, DoAll;
    SidelineKeepsRequests(w, MarkIdle(w.store, id.workerId, id.generation));
    SettlingIsSideline(w.store, id, code);
    hide Mark, SettleFailure, Sideline;
    SidelineKeepsRequests(w, SettleFailure(w.store, id, code));
    SidelineKeepsRequests(w, SettleFailure(w.store, id, code) + away);
  }

  lemma RecoverIsSafe(cfg: Config, w: World, a: Assignment, code: ErrorCode, aborted: bool)
    ensures SafeAll(w, Recover(cfg, w.store, a, code, aborted).ops)
  {
    hide Apply, Note, SafeAll, DoAll, Finalize, Mark, SettleFailure;
    var id := a.identity;
    var r := id.requestId;
    var away := if Isolatable(code) then MarkDisconnected(w.store, id.workerId, id.generation) else [];
    var settled := SettleFailure(w.store, id, code);
    SettlingIsSafe(w, id, code, away);
    if r in w.store.requests {
      RetryIsSafe(w, settled + away, r);
    }
    FinalizeAfter(w, settled, r, Failed, code);
  }

  lemma ContinueIsSafe(cfg: Config, w: World, a: Assignment, acceptance: Acceptance, aborted: bool, ids: seq<LeaseId>)
    ensures SafeAll(w, Continue(cfg, w.store, a, acceptance, aborted, ids).ops)
  {
    hide Apply, Note, SafeAll, DoAll, Finalize, Isolate, Recover;
    var id := a.identity;
    var r := id.requestId;
    var idle := MarkIdle(w.store, id.workerId, id.generation);
    SidelineKeepsRequests(w, idle);
    DoAllReplays(w, idle);
    var v := DoAll(w, idle);
    match acceptance
    case AcceptedFinal =>
    case Duplicate =>
    case AcceptedCheckpoint(_) =>
      if TransitionFires(w.store, r, Running) {
        Lead(v, Requests(Transition(r, Running, Queued)), []);
        assert [Requests(Transition(r, Running, Queued))] + [] == [Requests(Transition(r, Running, Queued))];
        Join(w, idle, [Requests(Transition(r, Running, Queued))]);
      } else {
        RecoverIsSafe(cfg, v, a, StateTransitionViolation, aborted);
        Join(w, idle, Recover(cfg, v.store, a, StateTransitionViolation, aborted).ops);
      }
    case AcceptCancelled =>
      var patch := Bookkeeping(UpdateAttempt(r, id.attemptId, AttemptCancelled, Some(UserCancellation)));
      SuppressIsSafe(w, idle, patch, r, Cancelled, UserCancellation);
    case _ =>
      IsolateIsHarmless(v.store, id.workerId, id.generation, ids);
      var code := AcceptanceCode(acceptance);
      var patch := Bookkeeping(UpdateAttempt(r, id.attemptId, AttemptSuppressed, Some(code)));
      var isolated := idle + Isolate(v.store, id.workerId, id.generation, ids);
      HarmlessIsSafe(w, isolated);
      SuppressIsSafe(w, isolated, patch, r, Failed, code);
  }

  lemma FinalizeIgnoresBooks(s: Store, books: Books, r: RequestId, stage: Stage, code: ErrorCode)
    ensures Finalize(s.(books := books), r, stage, code) == Finalize(s, r, stage, code)
  {}

  /** Attempt history written between planning a finalisation and carrying it out. */
  lemma SuppressIsSafe(w: World, first: seq<Op>, patch: Op, r: RequestId, stage: Stage, code: ErrorCode)
    requires SafeAll(w, first)
    requires patch.Bookkeeping?
    requires stage == Failed || stage == Cancelled
    ensures SafeAll(w, first + [patch] + Finalize(Replay(w.store, first), r, stage, code))
  {
    hide Note, SafeAll, DoAll, Finalize;
    DoAllReplays(w, first);
    var v := DoAll(w, first);
    var u := Do(v, patch);
    FinalizeIgnoresBooks(v.store, u.store.books, r, stage, code);
    assert u.store == v.store.(books := u.store.books);
    var last := Finalize(v.store, r, stage, code);
    FinalizeIsSafe(u, r, stage, code);
    Lead(v, patch, last);
    Join(w, first, [patch] + last);
    assert first + [patch] + last == first + ([patch] + last);
  }

  lemma SegmentHeadIsSafe(w: World, id: RequestId, segment: nat, total: nat, aborted: bool)
    ensures SafeAll(w, SegmentHead(w.store, id, segment, total, aborted).ops)
  {
    hide Apply, Note, SafeAll, DoAll, Finalize;
    HarmlessIsSafe(w, []);
    FinalizeIsSafe(w, id, Cancelled, UserCancellation);
  }

  lemma SegmentTailIsSafe(w: World, id: RequestId, segment: nat, got: bool)
    requires id in w.store.requests ==> segment < w.store.requests[id].totalSegments
    ensures SafeAll(w, SegmentTail(w.store, id, segment, got).ops)
  {
    var step := SegmentTail(w.store, id, segment, got);
    HarmlessIsSafe(w, []);
    FinalizeIsSafe(w, id, Cancelled, UserCancellation);
    if step.out.EnterSegment? {
      hide Apply, Note, SafeAll, DoAll, Finalize;
      var note := Bookkeeping(PutCursor(Cursor(id, segment, w.store.requests[id].totalSegments)));
      HarmlessIsSafe(Do(w, step.ops[0]), [note]);
      Lead(w, step.ops[0], [note]);
      assert step.ops == [step.ops[0]] + [note];
    }
  }

  lemma AcknowledgeIsSafe(w: World, id: RequestId, now: nat)
    requires CancellationsKeyed(w.store)
    ensures SafeAll(w, Acknowledge(w.store, id, now))
  {
    var ops := Acknowledge(w.store, id, now);
    if ops != [] {
      Lead(w, ops[0], []);
      assert ops == [ops[0]] + [];
    }
  }

  lemma EndRunIsSafe(w: World, id: RequestId, thrown: Option<ErrorCode>, kind: AbortKind, now: nat)
    requires Consistent(w)
    ensures SafeAll(w, EndRun(w.store, id, thrown, kind, now))
  {
    var closed := Closing(w.store, id, thrown, kind);
    FinalizeIsSafe(w, id, Failed, RuntimeTransient);
    FinalizeIsSafe(w, id, Failed, DeadlineExceeded);
    FinalizeIsSafe(w, id, Cancelled, UserCancellation);
    if thrown.Some? {
      FinalizeIsSafe(w, id, Failed, thrown.value);
    }
    assert SafeAll(w, closed);
    DisciplinePreserves(w, closed);
    DoAllReplays(w, closed);
    AcknowledgeIsSafe(DoAll(w, closed), id, now);
    Join(w, closed, Acknowledge(Replay(w.store, closed), id, now));
  }

  // --- Messages from outside ---

  lemma WorkerFailureIsSafe(w: World, id: Identity, code: ErrorCode, now: nat, ids: seq<LeaseId>)
    ensures SafeAll(w, WorkerFailure(w.store, id, code, now, ids))
  {
    hide Apply, Note, SafeAll, DoAll, Finalize, Isolate;
    var r := id.requestId;
    if r in w.store.cancellations {
      var patch := Bookkeeping(UpdateAttempt(r, id.attemptId, AttemptCancelled, Some(UserCancellation)));
      HarmlessIsSafe(w, []);
      SuppressIsSafe(w, [], patch, r, Cancelled, UserCancellation);
      assert [] + [patch] == [patch];
      assert Replay(w.store, []) == w.store;
    } else {
      var settled := FailureSettled(w.store, id, code);
      var v := Replay(w.store, settled);
      IsolateIsHarmless(v, id.workerId, id.generation, ids);
      HarmlessIsSafe(w, []);
      HarmlessIsSafe(w, settled + []);
      HarmlessIsSafe(w, settled + Isolate(v, id.workerId, id.generation, ids));
    }
  }

  lemma WorkerMessagesAreSafe(w: World, x: WorkerId, g: Generation, timeoutMs: nat, now: nat, ids: seq<LeaseId>)
    ensures SafeAll(w, RemoveWorker(w.store, x, ids))
    ensures SafeAll(w, Heartbeat(w.store, x, g, now))
    ensures SafeAll(w, TimeOut(w.store, x, timeoutMs, now, ids))
  {
    hide Apply, Note, SafeAll, DoAll;
    DeletesAreHarmless(ids);
    HarmlessIsSafe(w, RemoveWorker(w.store, x, ids));
    HarmlessIsSafe(w, Heartbeat(w.store, x, g, now));
    HarmlessIsSafe(w, TimeOut(w.store, x, timeoutMs, now, ids));
  }

  lemma {:induction false} WorkerWritesRegisterNothing(w: World, ops: seq<Op>)
    requires forall i :: 0 <= i < |ops| ==> ops[i].Workers? && !ops[i].worker.PutWorker?
    ensures DoAll(w, ops).past == w.past
    decreases |ops|
  {
    if ops != [] {
      WorkerWritesRegisterNothing(Do(w, ops[0]), ops[1..]);
    }
  }

  lemma RegisterIsSafe(cfg: Config, w: World, x: WorkerId, tier: nat, vramMB: nat, connection: string,
                       newGeneration: Generation, now: nat, ids: seq<LeaseId>)
    requires WorkersKeyed(w.store)
    requires newGeneration !in w.past.registered
    ensures SafeAll(w, Register(cfg, w.store, x, tier, vramMB, connection, newGeneration, now, ids).ops)
  {
    hide Apply, Note, SafeAll, DoAll;
    HarmlessIsSafe(w, []);
    if vramMB >= cfg.minimumVramMB {
      var created := Workers(PutWorker(Worker(x, newGeneration, connection, tier, vramMB, Idle, now, None)));
      Single(w, created);
      if x in w.store.workers {
        var current := w.store.workers[x];
        var refreshed := Workers(PutWorker(current.(tier := tier, vramMB := vramMB,
          stage := if current.stage == Revoked then Idle else current.stage)));
        Single(w, refreshed);
        var revoke := RevokeWorker(w.store, x, current.generation);
        HarmlessIsSafe(w, revoke);
        WorkerWritesRegisterNothing(w, revoke);
        DeletesAreHarmless(ids);
        HarmlessIsSafe(Do(DoAll(w, revoke), created), DeleteLeases(ids));
        Lead(DoAll(w, revoke), created, DeleteLeases(ids));
        Join(w, revoke, [created] + DeleteLeases(ids));
        assert revoke + [created] + DeleteLeases(ids) == revoke + ([created] + DeleteLeases(ids));
      }
    }
  }

  /** Requests cancelled while merely accepted are queued first. */
  lemma CancelRequestIsSafe(cfg: Config, w: World, id: RequestId, now: nat, inFlight: bool)
    requires Consistent(w)
    ensures SafeAll(w, CancelRequest(cfg, w.store, id, now, inFlight).ops)
  {
    hide Apply, Note, SafeAll, DoAll, Finalize, Consistent;
    var s := w.store;
    HarmlessIsSafe(w, []);
    if id in s.requests && s.requests[id].stage != Completed && s.requests[id].stage != Failed {
      var record := if id in s.cancellations then s.cancellations[id]
                    else Cancellation(id, now, cfg.cancelAckDeadlineMs, None);
      var first := CancelPrefix(s, id, record);
      CancelPrefixIsSafe(w, id, record);
      FinalizeAfter(w, first, id, Cancelled, UserCancellation);
      if id !in s.cancellations && !inFlight && id !in s.leases {
        var stopped := first + Finalize(Replay(s, first), id, Cancelled, UserCancellation);
        var last := PutCancellation(id, record.(acknowledgedAt := Some(now)));
        CancelStops(s, id, record, now);
        DoAllReplays(w, stopped);
        Single(DoAll(w, stopped), last);
        Join(w, stopped, [last]);
      }
    }
  }

  lemma CancellationIsSafe(w: World, id: RequestId, record: Cancellation)
    requires Consistent(w) && id in w.store.requests
    requires w.store.requests[id].stage != Completed && w.store.requests[id].stage != Failed
    requires if id in w.store.cancellations then record == w.store.cancellations[id]
             else record.requestId == id && record.acknowledgedAt.None?
    ensures Safe(w, PutCancellation(id, record))
  {
    assert CancellationsKeyed(w.store) && CancellationsHold(w.store);
  }

  lemma CancelPrefixIsSafe(w: World, id: RequestId, record: Cancellation)
    requires Consistent(w) && id in w.store.requests
    requires w.store.requests[id].stage != Completed && w.store.requests[id].stage != Failed
    requires if id in w.store.cancellations then record == w.store.cancellations[id]
             else record.requestId == id && record.acknowledgedAt.None?
    ensures SafeAll(w, CancelPrefix(w.store, id, record))
  {
    hide Apply, Note, SafeAll, DoAll, Consistent, Safe;
    var s := w.store;
    var put := PutCancellation(id, record);
    CancellationIsSafe(w, id, record);
    var patch := if id in s.leases
      then [Bookkeeping(UpdateAttempt(id, s.leases[id].attemptId, AttemptCancelled, Some(UserCancellation)))] else [];
    var queue := if s.requests[id].stage == Accepted then [Requests(Transition(id, Accepted, Queued))] else [];
    var v := Do(w, put);
    HarmlessIsSafe(v, patch);
    QueueIsSafe(DoAll(v, patch), id, s.requests[id].stage == Accepted);
    Join(v, patch, queue);
    Lead(w, put, patch + queue);
    assert CancelPrefix(s, id, record) == [put] + (patch + queue);
  }

  lemma QueueIsSafe(w: World, id: RequestId, wanted: bool)
    ensures SafeAll(w, if wanted then [Requests(Transition(id, Accepted, Queued))] else [])
  {
    Single(w, Requests(Transition(id, Accepted, Queued)));
  }

  lemma CancelPrefixEffect(s: Store, id: RequestId, record: Cancellation)
    requires id in s.requests
    ensures var t := Replay(s, CancelPrefix(s, id, record));
            && t.leases == s.leases && t.checkpoints == s.checkpoints && t.workers == s.workers
            && t.results == s.results
            && t.cancellations == s.cancellations[id := record]
            && OnlyRequest(s, t, id)
            && t.requests[id].stage == if s.requests[id].stage == Accepted then Queued else s.requests[id].stage
  {
    var put := PutCancellation(id, record);
    var patch := if id in s.leases
      then [Bookkeeping(UpdateAttempt(id, s.leases[id].attemptId, AttemptCancelled, Some(UserCancellation)))] else [];
    var queue := if s.requests[id].stage == Accepted then [Requests(Transition(id, Accepted, Queued))] else [];
    var s1 := Apply(s, put);
    var s2 := Replay(s1, patch);
    if patch != [] {
      ReplaySingle(s1, patch[0]);
    }
    if queue != [] {
      ReplaySingle(s2, queue[0]);
    }
    assert CancelPrefix(s, id, record) == [put] + (patch + queue);
    ReplayLead(s, put, patch + queue);
    ReplayAppend(s1, patch, queue);
  }

  /** After the finalisation an idle request is cancelled and holds no lease. */
  lemma CancelStops(s: Store, id: RequestId, record: Cancellation, at: nat)
    requires id in s.requests && id !in s.leases && id !in s.cancellations
    requires s.requests[id].stage != Completed && s.requests[id].stage != Failed
    requires record.requestId == id && record.acknowledgedAt.None?
    ensures var first := CancelPrefix(s, id, record);
            var stopped := first + Finalize(Replay(s, first), id, Cancelled, UserCancellation);
            CancellationSafe(Replay(s, stopped), id, record.(acknowledgedAt := Some(at)))
  {
    var first := CancelPrefix(s, id, record);
    var t := Replay(s, first);
    hide Apply, Replay, Finalize, CancelPrefix;
    CancelPrefixEffect(s, id, record);
    FinalizeEffect(t, id, Cancelled, UserCancellation);
    ReplayAppend(s, first, Finalize(t, id, Cancelled, UserCancellation));
  }

  // --- Recovery ---

  lemma TerminalizeIsSafe(w: World, id: RequestId, stage: Stage, code: ErrorCode)
    requires stage == Failed || stage == Cancelled
    ensures SafeAll(w, Terminalize(w.store, id, stage, code))
  {
    var ops := Terminalize(w.store, id, stage, code);
    HarmlessIsSafe(w, []);
    if ops != [] {
      hide Apply, Note, SafeAll, DoAll;
      var from := w.store.requests[id].stage;
      var queue := if from == Accepted then [Requests(Transition(id, Accepted, Queued))] else [];
      var close := Requests(Transition(id, if from == Accepted then Queued else from, stage));
      var rest := SetErrorIfFailed(id, stage, code) + [Checkpoints(DeleteCheckpoints(id))];
      Single(w, Requests(Transition(id, Accepted, Queued)));
      var v := DoAll(w, queue);
      HarmlessIsSafe(Do(v, close), rest);
      Lead(v, close, rest);
      Join(w, queue, [close] + rest);
      assert ops == queue + ([close] + rest);
    }
  }

  lemma ReclaimPast(w: World, id: RequestId)
    ensures SafeAll(w, Reclaim(w.store, id))
    ensures DoAll(w, Reclaim(w.store, id)).store.requests == w.store.requests
  {
    SidelineKeepsRequests(w, Reclaim(w.store, id));
  }

  /** A recovery that closes the request: claim, reclaim, terminalise, release. */
  lemma ClosePlanIsSafe(w: World, id: RequestId, owner: OwnerId, claim: Op, stage: Stage, code: ErrorCode)
    requires stage == Failed || stage == Cancelled
    requires claim.Bookkeeping?
    ensures SafeAll(w, [claim] + ClosePlan(w.store, id, owner, stage, code).ops)
  {
    hide Note, SafeAll, DoAll, Terminalize;
    var v := Do(w, claim);
    var reclaim := Reclaim(w.store, id);
    assert Reclaim(v.store, id) == reclaim;
    ReclaimPast(v, id);
    var u := DoAll(v, reclaim);
    var close := Terminalize(w.store, id, stage, code);
    TerminalizeReads(u.store, w.store, id, stage, code);
    TerminalizeIsSafe(u, id, stage, code);
    var release := [Bookkeeping(Release(id, owner))];
    HarmlessIsSafe(DoAll(u, close), release);
    Join(u, close, release);
    Join(v, reclaim, close + release);
    Lead(w, claim, reclaim + (close + release));
    assert reclaim + close + release == reclaim + (close + release);
  }

  lemma TerminalizeReads(s: Store, t: Store, id: RequestId, stage: Stage, code: ErrorCode)
    requires s.requests == t.requests
    ensures Terminalize(s, id, stage, code) == Terminalize(t, id, stage, code)
  {}

  lemma ResumeIsSafe(w: World, id: RequestId, claim: Op, from: Stage)
    requires claim.Bookkeeping?
    requires !Terminal(from)
    ensures from != Queued ==> SafeAll(w, [claim] + (Reclaim(w.store, id) + [Requests(Transition(id, from, Queued))]))
    ensures SafeAll(w, [claim] + (Reclaim(w.store, id) + []))
  {
    hide Note, SafeAll, DoAll;
    var v := Do(w, claim);
    var reclaim := Reclaim(w.store, id);
    assert Reclaim(v.store, id) == reclaim;
    ReclaimPast(v, id);
    var u := DoAll(v, reclaim);
    var queue := Requests(Transition(id, from, Queued));
    if from != Queued {
      Single(u, queue);
      Join(v, reclaim, [queue]);
      Lead(w, claim, reclaim + [queue]);
    }
    Lead(w, claim, reclaim);
    assert reclaim + [] == reclaim;
  }

  lemma BeginRecoveryIsSafe(w: World, id: RequestId, owner: OwnerId, now: nat, ttlMs: nat, maxRetries: nat,
                            digest: string, cs: seq<Checkpoint>)
    ensures SafeAll(w, BeginRecovery(w.store, id, owner, now, ttlMs, maxRetries, digest, cs).ops)
  {
    hide Apply, Note, SafeAll, DoAll, ClosePlan, Reclaim, UsablePredecessor, LeaseBelongs, Predecessor,
         AbsoluteDeadline;
    HarmlessIsSafe(w, []);
    if id in w.store.requests && !Terminal(w.store.requests[id].stage) {
      var claim := Bookkeeping(Claim(Ownership(id, owner, now, now + ttlMs), now));
      HarmlessIsSafe(w, [claim] + [Bookkeeping(Release(id, owner))]);
      match Decide(SnapshotOf(w.store, id, cs), now, maxRetries, digest)
      case AlreadyTerminal(_) =>
      case WaitActiveOwner(_, _) =>
      case Cancel(_) => ClosePlanIsSafe(w, id, owner, claim, Cancelled, UserCancellation);
      case Fail(code, _) => ClosePlanIsSafe(w, id, owner, claim, Failed, code);
      case Resume(from, _, _, _, _, _) => ResumeIsSafe(w, id, claim, from);
    }
  }
}
