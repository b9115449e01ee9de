/**
 * What holds whenever no step is half done: a closed request holds nothing, and
 * every live lease names the worker generation that is stored now. Single
 * writes inside a step may break this; whole steps restore it.
 */
module Boundaries {
  import opened Options
  import opened RequestStages
  import opened DurableTypes
  import opened Store
  import opened RecoveryPlan
  import opened Steps
  import opened Discipline
  import opened Effects
  import opened StepSafety

  ghost predicate Clean(s: Store) {
    forall r :: r in s.requests && Terminal(s.requests[r].stage) ==>
      && r !in s.leases
      && forall k :: k in s.checkpoints ==> k.0 != r
  }

  ghost predicate Fenced(s: Store) {
    forall r :: r in s.leases ==> ViewIsCurrent(s, s.leases[r].workerId, s.leases[r].generation)
  }

  ghost predicate Tidy(s: Store) { Clean(s) && Fenced(s) }

  /** Writes that cannot disturb a tidy store, when they are disciplined. */
  predicate Calm(s: Store, op: Op) {
    match op
    case Requests(o) => o.Transition? ==> !Terminal(o.next)
    case Workers(o) =>
      && !o.DeleteWorker?
      && (o.PutWorker? && o.worker.id in s.workers ==> s.workers[o.worker.id].generation == o.worker.generation)
    case Commit(_, _, _) => false
    case _ => true
  }

  lemma CalmKeepsClean(w: World, op: Op)
    requires Clean(w.store) && Safe(w, op) && Calm(w.store, op)
    ensures Clean(Apply(w.store, op))
  {}

  lemma CalmKeepsFenced(w: World, op: Op)
    requires Fenced(w.store) && Safe(w, op) && Calm(w.store, op)
    ensures Fenced(Apply(w.store, op))
  {}

  /** Calm whatever the state: no closing edge, no worker put or deleted. */
  predicate AlwaysCalm(op: Op) {
    match op
    case Requests(o) => o.Transition? ==> !Terminal(o.next)
    case Workers(o) => !o.DeleteWorker? && !o.PutWorker?
    case Commit(_, _, _) => false
    case _ => true
  }

  lemma {:induction false} CalmRunKeepsTidy(w: World, ops: seq<Op>)
    requires Tidy(w.store) && SafeAll(w, ops)
    requires forall i :: 0 <= i < |ops| ==> AlwaysCalm(ops[i])
    ensures Tidy(Replay(w.store, ops))
    decreases |ops|
  {
    if ops != [] {
      CalmKeepsClean(w, ops[0]);
      CalmKeepsFenced(w, ops[0]);
      CalmRunKeepsTidy(Do(w, ops[0]), ops[1..]);
    }
  }

  lemma CloseKeepsTidy(s: Store, t: Store, id: RequestId, stage: Stage)
    requires Tidy(s) && Closed(s, t, id, stage)
    ensures Tidy(t)
  {}

  lemma FinalizeKeepsTidy(s: Store, id: RequestId, stage: Stage, code: ErrorCode)
    requires Tidy(s)
    ensures Tidy(Replay(s, Finalize(s, id, stage, code)))
  {
    hide Replay, Finalize, Tidy;
    FinalizeEffect(s, id, stage, code);
    var t := Replay(s, Finalize(s, id, stage, code));
    if t != s {
      CloseKeepsTidy(s, t, id, stage);
    }
  }

  lemma FinalizeAfterKeepsTidy(s: Store, first: seq<Op>, id: RequestId, stage: Stage, code: ErrorCode)
    requires Tidy(Replay(s, first))
    ensures Tidy(Replay(s, first + Finalize(Replay(s, first), id, stage, code)))
  {
    hide Replay, Finalize, Tidy;
    var t := Replay(s, first);
    ReplayAppend(s, first, Finalize(t, id, stage, code));
    FinalizeKeepsTidy(t, id, stage, code);
  }

  /** Revoking a generation and reclaiming every lease listed for it. */
  lemma RevokeAndReclaimKeepsTidy(s: Store, x: WorkerId, g: Generation, ids: seq<LeaseId>)
    requires Tidy(s) && Lists(s, x, g, ids)
    ensures Tidy(Replay(s, RevokeWorker(s, x, g) + DeleteLeases(ids)))
  {
    var revoke := RevokeWorker(s, x, g);
    var t := Replay(s, revoke);
    RevokeEffect(s, x, g);
    DeleteLeasesEffect(t, ids);
    ReplayAppend(s, revoke, DeleteLeases(ids));
    RevokedStaysTidy(s, t, Replay(t, DeleteLeases(ids)), x, g, ids);
  }

  lemma RevokedStaysTidy(s: Store, t: Store, u: Store, x: WorkerId, g: Generation, ids: seq<LeaseId>)
    requires Tidy(s) && Lists(s, x, g, ids)
    requires t == if ViewIsCurrent(s, x, g) then s.(workers := s.workers - {x}) else s
    requires u == t.(leases := u.leases) && Within(u.leases, t.leases)
    requires forall r :: r in t.leases ==> (r in u.leases <==> t.leases[r].leaseId !in ids)
    ensures Tidy(u)
    ensures forall r :: r in u.leases ==> !(u.leases[r].workerId == x && u.leases[r].generation == g)
  {
    forall r | r in u.leases
      ensures !(u.leases[r].workerId == x && u.leases[r].generation == g)
      ensures ViewIsCurrent(u, u.leases[r].workerId, u.leases[r].generation)
    {
      var l := s.leases[r];
      assert u.leases[r] == l;
      assert !HoldsLease(s, x, g, l.leaseId);
      assert ViewIsCurrent(s, l.workerId, l.generation);
    }
  }

  lemma IsolateKeepsTidy(s: Store, x: WorkerId, g: Generation, ids: seq<LeaseId>)
    requires Tidy(s) && Lists(s, x, g, ids)
    ensures Tidy(Replay(s, Isolate(s, x, g, ids)))
  {
    if KnowsGeneration(s, g) {
      RevokeAndReclaimKeepsTidy(s, x, g, ids);
    }
  }

  // --- Steps of a run ---

  lemma SubmitKeepsTidy(cfg: Config, w: World, key: Option<IdempotencyKey>, newId: RequestId, now: nat,
                        timeoutMs: Option<nat>)
    requires Tidy(w.store) && newId !in w.store.requests
    ensures Tidy(Replay(w.store, Submit(cfg, w.store, key, newId, now, timeoutMs).ops))
  {
    hide Replay, SafeAll, Tidy;
    SubmitIsSafe(cfg, w, key, newId, now, timeoutMs);
    CalmRunKeepsTidy(w, Submit(cfg, w.store, key, newId, now, timeoutMs).ops);
  }

  lemma DispatchKeepsTidy(cfg: Config, w: World, id: RequestId, segment: nat, attempt: nat, aborted: bool,
                          pick: Option<WorkerId>, attemptId: AttemptId, lease: LeaseId, now: nat)
    requires Tidy(w.store) && DispatchInputs(w, id, segment, pick, lease)
    ensures Tidy(Replay(w.store,
                        Dispatch(cfg, w.store, id, segment, attempt, aborted, pick, attemptId, lease, now).ops))
  {
    hide Apply, Replay, SafeAll, Tidy, Finalize, Assign, PredecessorUsable;
    var s := w.store;
    var step := Dispatch(cfg, s, id, segment, attempt, aborted, pick, attemptId, lease, now);
    DispatchIsSafe(cfg, w, id, segment, attempt, aborted, pick, attemptId, lease, now);
    var requeue := Requeue(s, id);
    RequeueIsSafe(w, id);
    CalmRunKeepsTidy(w, requeue);
    HarmlessIsSafe(w, []);
    CalmRunKeepsTidy(w, []);
    if attempt > cfg.maxRetries || aborted || id !in s.requests || Terminal(s.requests[id].stage) {
    } else if id in s.cancellations {
      FinalizeKeepsTidy(s, id, Cancelled, UserCancellation);
    } else if !PredecessorUsable(s, cfg, id, segment, now) {
      DropThenFailKeepsTidy(cfg, w, id, segment);
    } else if pick.None? {
      FinalizeAfterKeepsTidy(s, requeue, id, Failed, WorkerDisconnected);
    } else {
      AssignIsCalm(cfg, Replay(s, requeue), id, segment, s.workers[pick.value], attemptId, lease, now);
      CalmRunKeepsTidy(w, step.ops);
    }
  }

  lemma AssignIsCalm(cfg: Config, s: Store, id: RequestId, segment: nat, x: Worker,
                     attempt: AttemptId, lease: LeaseId, now: nat)
    ensures forall op :: op in Assign(cfg, s, id, segment, x, attempt, lease, now).ops ==> AlwaysCalm(op)
  {}

  lemma DropThenFailKeepsTidy(cfg: Config, w: World, id: RequestId, segment: nat)
    requires Tidy(w.store)
    ensures var requeue := Requeue(w.store, id);
            Tidy(Replay(w.store, requeue + DropExpired(w.store, cfg, id, segment)
                                 + Finalize(Replay(w.store, requeue), id, Failed, CheckpointIntegrityMismatch)))
  {
    hide Apply, Replay, SafeAll, Tidy;
    var requeue := Requeue(w.store, id);
    var drop := DropExpired(w.store, cfg, id, segment);
    RequeueIsSafe(w, id);
    DoAllReplays(w, requeue);
    HarmlessIsSafe(DoAll(w, requeue), drop);
    Join(w, requeue, drop);
    CalmRunKeepsTidy(w, requeue + drop);
    ReplayAppend(w.store, requeue, drop);
    DropKeepsRequests(Replay(w.store, requeue), drop);
    FinalizeAfterKeepsTidy(w.store, requeue + drop, id, Failed, CheckpointIntegrityMismatch);
  }

  lemma DropKeepsRequests(s: Store, drop: seq<Op>)
    requires |drop| <= 1 && forall i :: 0 <= i < |drop| ==> drop[i].Checkpoints?
    ensures Replay(s, drop).requests == s.requests && Replay(s, drop).leases == s.leases
  {
    if drop != [] {
      assert drop == [drop[0]];
      ReplaySingle(s, drop[0]);
    }
  }

  /** A completed request: the result's own stage, and nothing left behind. */
  ghost predicate Finished(s: Store, t: Store, r: RequestId) {
    && r in s.requests
    && t.requests == s.requests[r := s.requests[r].(stage := Completed)]
    && r !in t.leases && Within(t.leases, s.leases)
    && (forall k :: k in t.checkpoints ==> k.0 != r)
    && Within(t.checkpoints, s.checkpoints)
    && t.workers == s.workers
  }

  lemma FinishedKeepsTidy(s: Store, t: Store, r: RequestId)
    requires Tidy(s) && Finished(s, t, r)
    ensures Tidy(t)
  {}

  lemma CommitEffect(s: Store, r: RequestId, result: Result)
    requires CommitFires(s, r, Running, result)
    ensures var t := Replay(s, [Commit(r, Running, result)] + Reclaim(s, r));
            && t.checkpoints == s.checkpoints && t.workers == s.workers && t.cancellations == s.cancellations
            && r !in t.leases && Within(t.leases, s.leases)
            && t.requests == s.requests[r := s.requests[r].(stage := Completed)]
            && t.results == s.results[r := result]
  {
    var commit := Commit(r, Running, result);
    var t := Apply(s, commit);
    assert Reclaim(t, r) == Reclaim(s, r);
    ReclaimEffect(t, r);
    ReplayLead(s, commit, Reclaim(s, r));
  }

  lemma PatchAndDropEffect(s: Store, r: RequestId, patch: Op)
    requires patch.Bookkeeping?
    ensures var t := Replay(s, [patch, Checkpoints(DeleteCheckpoints(r))]);
            && t.requests == s.requests && t.leases == s.leases && t.workers == s.workers
            && t.results == s.results && t.cancellations == s.cancellations
            && Within(t.checkpoints, s.checkpoints)
            && forall k :: k in t.checkpoints ==> k.0 != r
  {
    var drop := Checkpoints(DeleteCheckpoints(r));
    ReplayLead(s, patch, [drop]);
    ReplaySingle(Apply(s, patch), drop);
    assert [patch] + [drop] == [patch, drop];
  }

  lemma CompleteKeepsTidy(s: Store, id: Identity, total: nat, tokens: seq<nat>, text: string)
    requires Tidy(s)
    ensures Tidy(Replay(s, Complete(s, id, total, tokens, text).ops))
  {
    hide Apply, Replay, Tidy;
    var r := id.requestId;
    var result := Result(r, tokens, text, total);
    if CommitFires(s, r, Running, result) {
      var commit := [Commit(r, Running, result)] + Reclaim(s, r);
      var patch := Bookkeeping(UpdateAttempt(r, id.attemptId, AttemptCompleted, None));
      CommitEffect(s, r, result);
      var t := Replay(s, commit);
      PatchAndDropEffect(t, r, patch);
      ReplayAppend(s, commit, [patch, Checkpoints(DeleteCheckpoints(r))]);
      FinishedKeepsTidy(s, Replay(t, [patch, Checkpoints(DeleteCheckpoints(r))]), r);
    } else {
      ReclaimEffect(s, r);
      FewerLeasesStayTidy(s, Replay(s, Reclaim(s, r)));
    }
  }

  lemma FewerLeasesStayTidy(s: Store, t: Store)
    requires Tidy(s)
    requires t.requests == s.requests && Within(t.leases, s.leases) && Within(t.checkpoints, s.checkpoints)
    requires t.workers == s.workers
    ensures Tidy(t)
  {}

  lemma AcceptEntryKeepsTidy(cfg: Config, w: World, result: WorkerResult, now: nat, ids: seq<LeaseId>)
    requires Tidy(w.store)
    requires result.WorkerResult? ==> Lists(w.store, result.identity.workerId, result.identity.generation, ids)
    ensures Tidy(Replay(w.store, AcceptEntry(cfg, w.store, result, now, ids).ops))
  {
    hide Apply, Tidy, Finalize, Isolate, Complete, Lists;
    var s := w.store;
    if result.WorkerResult? {
      var id := result.identity;
      FinalizeKeepsTidy(s, id.requestId, Cancelled, UserCancellation);
      IsolateKeepsTidy(s, id.workerId, id.generation, ids);
      if id.requestId in s.requests && result.produced.Output? {
        CompleteKeepsTidy(s, id, s.requests[id.requestId].totalSegments, result.produced.tokens, result.produced.text);
      }
    }
  }

  lemma AcceptCommitKeepsTidy(cfg: Config, w: World, id: Identity, c: Checkpoint, entered: nat, intact: bool,
                              now: nat, ids: seq<LeaseId>)
    requires Tidy(w.store) && Lists(w.store, id.workerId, id.generation, ids)
    ensures Tidy(Replay(w.store, AcceptCommit(cfg, w.store, id, c, entered, intact, now, ids).ops))
  {
    hide Apply, SafeAll, Tidy, Finalize, Isolate, Lists;
    var s := w.store;
    var step := AcceptCommit(cfg, s, id, c, entered, intact, now, ids);
    AcceptCommitIsSafe(cfg, w, id, c, entered, intact, now, ids);
    ReclaimStillMatches(s, id, c, Max(entered, now));
    FinalizeKeepsTidy(s, id.requestId, Cancelled, UserCancellation);
    IsolateKeepsTidy(s, id.workerId, id.generation, ids);
    if step.out.AcceptedCheckpoint? {
      CalmRunKeepsTidy(w, step.ops);
    }
  }

  lemma SettlingIsCalm(s: Store, id: Identity, code: ErrorCode)
    ensures forall op :: op in SettleFailure(s, id, code) ==> AlwaysCalm(op)
    ensures forall op ::
              op in MarkDisconnected(s, id.workerId, id.generation) + MarkIdle(s, id.workerId, id.generation) ==>
                AlwaysCalm(op)
  {}

  lemma RecoverKeepsTidy(cfg: Config, w: World, a: Assignment, code: ErrorCode, aborted: bool)
    requires Tidy(w.store)
    ensures Tidy(Replay(w.store, Recover(cfg, w.store, a, code, aborted).ops))
  {
    hide Apply, Replay, SafeAll, Tidy, Finalize, Mark, SettleFailure;
    var id := a.identity;
    var settled := SettleFailure(w.store, id, code);
    RecoverIsSafe(cfg, w, a, code, aborted);
    SettlingIsSideline(w.store, id, code);
    SettlingIsCalm(w.store, id, code);
    SidelineKeepsRequests(w, settled);
    CalmRunKeepsTidy(w, settled);
    FinalizeAfterKeepsTidy(w.store, settled, id.requestId, Failed, code);
    var step := Recover(cfg, w.store, a, code, aborted);
    if !step.out.ReturnNull? {
      assert forall op :: op in step.ops ==> AlwaysCalm(op);
      CalmRunKeepsTidy(w, step.ops);
    }
  }

  lemma ContinueKeepsTidy(cfg: Config, w: World, a: Assignment, acceptance: Acceptance, aborted: bool,
                          ids: seq<LeaseId>)
    requires Tidy(w.store) && Lists(w.store, a.identity.workerId, a.identity.generation, ids)
    ensures Tidy(Replay(w.store, Continue(cfg, w.store, a, acceptance, aborted, ids).ops))
  {
    hide Apply, Replay, SafeAll, Tidy, Finalize, Isolate, Lists, Recover;
    var id := a.identity;
    var r := id.requestId;
    var idle := MarkIdle(w.store, id.workerId, id.generation);
    ContinueIsSafe(cfg, w, a, acceptance, aborted, ids);
    SidelineKeepsRequests(w, idle);
    DoAllReplays(w, idle);
    CalmRunKeepsTidy(w, idle);
    var v := DoAll(w, idle);
    match acceptance
    case AcceptedFinal =>
    case Duplicate =>
    case AcceptedCheckpoint(_) =>
      if TransitionFires(w.store, r, Running) {
        CalmRunKeepsTidy(w, Continue(cfg, w.store, a, acceptance, aborted, ids).ops);
      } else {
        RecoverKeepsTidy(cfg, v, a, StateTransitionViolation, aborted);
        ReplayAppend(w.store, idle, Recover(cfg, v.store, a, StateTransitionViolation, aborted).ops);
      }
    case AcceptCancelled =>
      PatchThenCloseKeepsTidy(w.store, idle,
                              Bookkeeping(UpdateAttempt(r, id.attemptId, AttemptCancelled, Some(UserCancellation))),
                              r, Cancelled, UserCancellation);
    case _ =>
      var isolate := Isolate(v.store, id.workerId, id.generation, ids);
      IdleKeepsLeases(w.store, id.workerId, id.generation);
      ListsReadsLeases(w.store, v.store, id.workerId, id.generation, ids);
      IsolateKeepsTidy(v.store, id.workerId, id.generation, ids);
      ReplayAppend(w.store, idle, isolate);
      var code := AcceptanceCode(acceptance);
      PatchThenCloseKeepsTidy(w.store, idle + isolate,
                              Bookkeeping(UpdateAttempt(r, id.attemptId, AttemptSuppressed, Some(code))), r, Failed,
                                  code);
  }

  lemma IdleKeepsLeases(s: Store, x: WorkerId, g: Generation)
    ensures Replay(s, MarkIdle(s, x, g)).leases == s.leases
  {
    if ViewIsCurrent(s, x, g) {
      var first, second := Workers(SetWorkerStage(x, g, Idle)), Workers(SetWorkerSegment(x, g, None));
      assert MarkIdle(s, x, g) == [first] + [second];
      ReplayLead(s, first, [second]);
      ReplaySingle(Apply(s, first), second);
    }
  }

  lemma ListsReadsLeases(s: Store, t: Store, x: WorkerId, g: Generation, ids: seq<LeaseId>)
    requires s.leases == t.leases && Lists(s, x, g, ids)
    ensures Lists(t, x, g, ids)
  {
    forall lease ensures HoldsLease(s, x, g, lease) == HoldsLease(t, x, g, lease) {}
  }

  lemma PatchThenCloseKeepsTidy(s: Store, first: seq<Op>, patch: Op, r: RequestId, stage: Stage, code: ErrorCode)
    requires Tidy(Replay(s, first)) && patch.Bookkeeping?
    ensures Tidy(Replay(s, first + [patch] + Finalize(Replay(s, first), r, stage, code)))
  {
    hide Replay, Finalize;
    var t := Replay(s, first);
    var u := Apply(t, patch);
    assert Tidy(u);
    hide Tidy;
    ReplayAppend(s, first, [patch]);
    ReplaySingle(t, patch);
    assert u == t.(books := u.books);
    FinalizeIgnoresBooks(t, u.books, r, stage, code);
    FinalizeAfterKeepsTidy(s, first + [patch], r, stage, code);
  }

  lemma SegmentHeadKeepsTidy(s: Store, id: RequestId, segment: nat, total: nat, aborted: bool)
    requires Tidy(s)
    ensures Tidy(Replay(s, SegmentHead(s, id, segment, total, aborted).ops))
  {
    hide Apply, Tidy, Finalize;
    FinalizeKeepsTidy(s, id, Cancelled, UserCancellation);
  }

  lemma SegmentTailKeepsTidy(w: World, id: RequestId, segment: nat, got: bool)
    requires Tidy(w.store)
    requires id in w.store.requests ==> segment < w.store.requests[id].totalSegments
    ensures Tidy(Replay(w.store, SegmentTail(w.store, id, segment, got).ops))
  {
    hide Apply, Tidy, Finalize, SafeAll;
    SegmentTailIsSafe(w, id, segment, got);
    FinalizeKeepsTidy(w.store, id, Cancelled, UserCancellation);
    if SegmentTail(w.store, id, segment, got).out.EnterSegment? {
      CalmRunKeepsTidy(w, SegmentTail(w.store, id, segment, got).ops);
    }
  }

  lemma EndRunKeepsTidy(w: World, id: RequestId, thrown: Option<ErrorCode>, kind: AbortKind, now: nat)
    requires Consistent(w) && Tidy(w.store)
    ensures Tidy(Replay(w.store, EndRun(w.store, id, thrown, kind, now)))
  {
    hide Apply, Replay, SafeAll, Tidy, Finalize, Consistent;
    var closed := Closing(w.store, id, thrown, kind);
    HarmlessIsSafe(w, []);
    CalmRunKeepsTidy(w, []);
    FinalizeKeepsTidy(w.store, id, Failed, RuntimeTransient);
    FinalizeKeepsTidy(w.store, id, Failed, DeadlineExceeded);
    FinalizeKeepsTidy(w.store, id, Cancelled, UserCancellation);
    if thrown.Some? {
      FinalizeKeepsTidy(w.store, id, Failed, thrown.value);
    }
    assert Tidy(Replay(w.store, closed));
    EndRunIsSafe(w, id, thrown, kind, now);
    var ack := Acknowledge(Replay(w.store, closed), id, now);
    SafeAllAppend(w, closed, ack);
    DoAllReplays(w, closed);
    CalmRunKeepsTidy(DoAll(w, closed), ack);
    ReplayAppend(w.store, closed, ack);
  }

  // --- Messages from outside ---

  lemma WorkerFailureKeepsTidy(w: World, id: Identity, code: ErrorCode, now: nat, ids: seq<LeaseId>)
    requires Tidy(w.store)
    requires Lists(Replay(w.store, FailureSettled(w.store, id, code)), id.workerId, id.generation, ids)
    ensures Tidy(Replay(w.store, WorkerFailure(w.store, id, code, now, ids)))
  {
    hide Apply, SafeAll, Tidy, Finalize, Isolate, Lists;
    var s := w.store;
    var r := id.requestId;
    var settled := FailureSettled(s, id, code);
    var t := Replay(s, settled);
    HarmlessIsSafe(w, settled);
    CalmRunKeepsTidy(w, settled);
    if r in s.cancellations {
      assert Replay(s, []) == s;
      var patch := Bookkeeping(UpdateAttempt(r, id.attemptId, AttemptCancelled, Some(UserCancellation)));
      PatchThenCloseKeepsTidy(s, [], patch, r, Cancelled, UserCancellation);
      assert [] + [patch] == [patch];
    } else if Match(s, id, now).None? {
      IsolateKeepsTidy(t, id.workerId, id.generation, ids);
      ReplayAppend(s, settled, Isolate(t, id.workerId, id.generation, ids));
      ReplayAppend(s, settled, []);
      assert Replay(t, []) == t;
    }
  }

  lemma CancelRequestKeepsTidy(cfg: Config, w: World, id: RequestId, now: nat, inFlight: bool)
    requires Consistent(w) && Tidy(w.store)
    ensures Tidy(Replay(w.store, CancelRequest(cfg, w.store, id, now, inFlight).ops))
  {
    hide Apply, Replay, SafeAll, Tidy, Finalize, Consistent;
    var s := w.store;
    HarmlessIsSafe(w, []);
    CalmRunKeepsTidy(w, []);
    if id in s.requests && s.requests[id].stage != Completed && s.requests[id].stage != Failed {
      var record := if id in s.cancellations then s.cancellations[id]
                    else Cancellation(id, now, cfg.cancelAckDeadlineMs, None);
      var first := CancelPrefix(s, id, record);
      CancelRequestIsSafe(cfg, w, id, now, inFlight);
      var stopped := first + Finalize(Replay(s, first), id, Cancelled, UserCancellation);
      var ops := CancelRequest(cfg, s, id, now, inFlight).ops;
      assert ops == stopped || (|ops| == |stopped| + 1 && ops[..|stopped|] == stopped);
      SafeAllAppend(w, first, ops[|first|..]);
      assert ops == first + ops[|first|..];
      CalmRunKeepsTidy(w, first);
      FinalizeAfterKeepsTidy(s, first, id, Cancelled, UserCancellation);
      if ops != stopped {
        var last := ops[|stopped|];
        assert ops == stopped + [last];
        SafeAllAppend(w, stopped, [last]);
        DoAllReplays(w, stopped);
        CalmRunKeepsTidy(DoAll(w, stopped), [last]);
        ReplayAppend(s, stopped, [last]);
      }
    }
  }

  lemma RegisterKeepsTidy(cfg: Config, w: World, x: WorkerId, tier: nat, vramMB: nat, connection: string,
                          newGeneration: Generation, now: nat, ids: seq<LeaseId>)
    requires Tidy(w.store) && WorkersKeyed(w.store) && GenerationsAreOwned(w)
    requires newGeneration !in w.past.registered
    requires x in w.store.workers ==> Lists(w.store, x, w.store.workers[x].generation, ids)
    ensures Tidy(Replay(w.store, Register(cfg, w.store, x, tier, vramMB, connection, newGeneration, now, ids).ops))
  {
    var s := w.store;
    var ops := Register(cfg, s, x, tier, vramMB, connection, newGeneration, now, ids).ops;
    var created := Workers(PutWorker(Worker(x, newGeneration, connection, tier, vramMB, Idle, now, None)));
    if vramMB >= cfg.minimumVramMB {
      if x !in s.workers {
        ReplaySingle(s, created);
      } else {
        var current := s.workers[x];
        if current.connectionId == connection {
          ReplaySingle(s, ops[0]);
        } else {
          ReconnectKeepsTidy(s, x, current.generation, created, ids);
        }
      }
    }
  }

  /** The old generation is revoked, the new one stored, then the old leases reclaimed. */
  lemma ReconnectKeepsTidy(s: Store, x: WorkerId, g: Generation, put: Op, ids: seq<LeaseId>)
    requires Tidy(s) && Lists(s, x, g, ids)
    requires GenerationStored(s.workers, x, g)
    requires put.Workers? && put.worker.PutWorker? && put.worker.worker.id == x
    ensures Tidy(Replay(s, RevokeWorker(s, x, g) + [put] + DeleteLeases(ids)))
  {
    var revoke := RevokeWorker(s, x, g);
    RevokeEffect(s, x, g);
    var t := Replay(s, revoke);
    var u := Apply(t, put);
    DeleteLeasesEffect(u, ids);
    DeleteLeasesEffect(t, ids);
    RevokedStaysTidy(s, t, Replay(t, DeleteLeases(ids)), x, g, ids);
    ReplayAppend(s, revoke, [put] + DeleteLeases(ids));
    ReplayLead(t, put, DeleteLeases(ids));
    assert revoke + [put] + DeleteLeases(ids) == revoke + ([put] + DeleteLeases(ids));
    PutAfterRevoke(s, t, put, Replay(t, DeleteLeases(ids)), Replay(u, DeleteLeases(ids)), x);
  }

  lemma PutAfterRevoke(s: Store, t: Store, put: Op, v: Store, v': Store, x: WorkerId)
    requires Tidy(v) && x !in t.workers
    requires put.Workers? && put.worker.PutWorker? && put.worker.worker.id == x
    requires v == t.(leases := v.leases)
    requires v' == Apply(t, put).(leases := v'.leases)
    requires v'.leases.Keys == v.leases.Keys && Within(v'.leases, v.leases)
    ensures Tidy(v')
  {}

  lemma BeatKeepsTidy(w: World, x: WorkerId, g: Generation, now: nat)
    requires Tidy(w.store)
    ensures Tidy(Replay(w.store, Heartbeat(w.store, x, g, now)))
  {
    hide Apply, SafeAll, Tidy;
    WorkerMessagesAreSafe(w, x, g, 0, now, []);
    CalmRunKeepsTidy(w, Heartbeat(w.store, x, g, now));
  }

  lemma WorkerMessagesKeepTidy(w: World, x: WorkerId, timeoutMs: nat, now: nat, ids: seq<LeaseId>)
    requires Tidy(w.store)
    requires x in w.store.workers ==> Lists(w.store, x, w.store.workers[x].generation, ids)
    ensures Tidy(Replay(w.store, RemoveWorker(w.store, x, ids)))
    ensures Tidy(Replay(w.store, TimeOut(w.store, x, timeoutMs, now, ids)))
  {
    hide Apply, SafeAll, Tidy, Lists, RevokeWorker;
    WorkerMessagesAreSafe(w, x, "", timeoutMs, now, ids);
    DeletesAreCalm(ids);
    if x in w.store.workers {
      RevokeAndReclaimKeepsTidy(w.store, x, w.store.workers[x].generation, ids);
    }
    CalmRunKeepsTidy(w, TimeOut(w.store, x, timeoutMs, now, ids));
  }

  lemma {:induction false} DeletesAreCalm(ids: seq<LeaseId>)
    ensures forall i :: 0 <= i < |ids| ==> AlwaysCalm(DeleteLeases(ids)[i])
  {
    if ids != [] {
      DeletesAreCalm(ids[1..]);
    }
  }

  // --- Recovery ---

  lemma DropEffect(s: Store, id: RequestId)
    ensures var t := Apply(s, Checkpoints(DeleteCheckpoints(id)));
            && t == s.(checkpoints := t.checkpoints)
            && (forall k :: k in t.checkpoints ==> k.0 != id)
            && Within(t.checkpoints, s.checkpoints)
  {}

  /** Moving a leaseless request to its last stage and dropping its checkpoints. */
  lemma MoveAndDropEffect(s: Store, id: RequestId, stage: Stage, code: ErrorCode)
    requires id in s.requests && id !in s.leases
    ensures var move := [Requests(Transition(id, s.requests[id].stage, stage))] + SetErrorIfFailed(id, stage, code);
            Closed(s, Replay(s, move + [Checkpoints(DeleteCheckpoints(id))]), id, stage)
  {
    var move := [Requests(Transition(id, s.requests[id].stage, stage))] + SetErrorIfFailed(id, stage, code);
    var drop := Checkpoints(DeleteCheckpoints(id));
    hide Apply, Replay, SetErrorIfFailed;
    MoveEffect(s, id, stage, code);
    ReplaySnoc(s, move, drop);
    DropEffect(Replay(s, move), id);
  }

  lemma QueuedThenClosed(s: Store, s1: Store, t: Store, id: RequestId, stage: Stage)
    requires id in s.requests
    requires s1 == s.(requests := s.requests[id := s.requests[id].(stage := Queued)])
    requires Closed(s1, t, id, stage)
    ensures Closed(s, t, id, stage)
  {}

  lemma TerminalizeEffect(s: Store, id: RequestId, stage: Stage, code: ErrorCode)
    requires id in s.requests && !Terminal(s.requests[id].stage) && id !in s.leases
    ensures Closed(s, Replay(s, Terminalize(s, id, stage, code)), id, stage)
  {
    var close := SetErrorIfFailed(id, stage, code) + [Checkpoints(DeleteCheckpoints(id))];
    if s.requests[id].stage == Accepted {
      var queue := Requests(Transition(id, Accepted, Queued));
      var s1 := Apply(s, queue);
      assert s1 == s.(requests := s.requests[id := s.requests[id].(stage := Queued)]);
      var rest := [Requests(Transition(id, Queued, stage))] + close;
      assert Terminalize(s, id, stage, code) == [queue] + rest;
      hide Apply, Replay, Terminalize, SetErrorIfFailed, Closed;
      MoveAndDropEffect(s1, id, stage, code);
      assert rest == [Requests(Transition(id, Queued, stage))] + SetErrorIfFailed(id, stage, code)
             + [Checkpoints(DeleteCheckpoints(id))];
      ReplayLead(s, queue, rest);
      QueuedThenClosed(s, s1, Replay(s1, rest), id, stage);
    } else {
      assert Terminalize(s, id, stage, code)
          == [Requests(Transition(id, s.requests[id].stage, stage))] + SetErrorIfFailed(id, stage, code)
             + [Checkpoints(DeleteCheckpoints(id))];
      hide Apply, Replay, Terminalize, SetErrorIfFailed, Closed;
      MoveAndDropEffect(s, id, stage, code);
    }
  }

  /** What a recovery that closes its request leaves: nothing of it, and no claim of the caller. */
  ghost predicate ClosedAndReleased(s: Store, t: Store, id: RequestId, owner: OwnerId, stage: Stage) {
    && OnlyRequest(s, t, id) && t.requests[id].stage == stage
    && id !in t.leases && Within(t.leases, s.leases)
    && (forall k :: k in t.checkpoints ==> k.0 != id)
    && Within(t.checkpoints, s.checkpoints)
    && t.workers == s.workers && t.results == s.results && t.cancellations == s.cancellations
    && (id in t.books.ownerships ==> t.books.ownerships[id].ownerId != owner)
  }

  lemma ReleaseEffect(s: Store, id: RequestId, owner: OwnerId)
    ensures var t := Apply(s, Bookkeeping(Release(id, owner)));
            && t == s.(books := t.books)
            && (id in t.books.ownerships ==> t.books.ownerships[id].ownerId != owner)
  {}

  lemma ClosedThenReleased(s: Store, s1: Store, s2: Store, s3: Store, t: Store, id: RequestId, owner: OwnerId,
                           stage: Stage)
    requires s1 == s.(books := s1.books)
    requires s2 == s1.(leases := s2.leases) && Within(s2.leases, s1.leases)
    requires Closed(s2, s3, id, stage)
    requires t == s3.(books := t.books)
    requires id in t.books.ownerships ==> t.books.ownerships[id].ownerId != owner
    ensures ClosedAndReleased(s, t, id, owner, stage)
  {}

  /** The four parts of a closing plan, one after the other. */
  lemma ClosePlanReplays(s: Store, id: RequestId, owner: OwnerId, claim: Op, stage: Stage, code: ErrorCode)
    ensures var s2 := Replay(Apply(s, claim), Reclaim(s, id));
            Replay(s, [claim] + ClosePlan(s, id, owner, stage, code).ops)
              == Apply(Replay(s2, Terminalize(s, id, stage, code)), Bookkeeping(Release(id, owner)))
  {
    hide Apply, Replay, Terminalize, Reclaim;
    var reclaim, close, release := Reclaim(s, id), Terminalize(s, id, stage, code), Bookkeeping(Release(id, owner));
    var s1 := Apply(s, claim);
    ReplaySnoc(Replay(s1, reclaim), close, release);
    ReplayAppend(s1, reclaim, close + [release]);
    ReplayLead(s, claim, reclaim + (close + [release]));
    assert reclaim + close + [release] == reclaim + (close + [release]);
  }

  lemma ClosePlanEffect(s: Store, id: RequestId, owner: OwnerId, claim: Op, stage: Stage, code: ErrorCode)
    requires claim.Bookkeeping?
    requires id in s.requests && !Terminal(s.requests[id].stage)
    ensures ClosedAndReleased(s, Replay(s, [claim] + ClosePlan(s, id, owner, stage, code).ops), id, owner, stage)
  {
    var s1 := Apply(s, claim);
    assert s1 == s.(books := s1.books);
    assert Reclaim(s1, id) == Reclaim(s, id);
    hide Apply, Replay, Terminalize, Reclaim, ClosePlan, Closed, Within, ClosedAndReleased;
    ReclaimEffect(s1, id);
    var s2 := Replay(s1, Reclaim(s, id));
    TerminalizeReads(s2, s, id, stage, code);
    TerminalizeEffect(s2, id, stage, code);
    var s3 := Replay(s2, Terminalize(s, id, stage, code));
    ReleaseEffect(s3, id, owner);
    ClosePlanReplays(s, id, owner, claim, stage, code);
    ClosedThenReleased(s, s1, s2, s3, Apply(s3, Bookkeeping(Release(id, owner))), id, owner, stage);
  }

  lemma BeginRecoveryKeepsTidy(w: World, id: RequestId, owner: OwnerId, now: nat, ttlMs: nat, maxRetries: nat,
                               digest: string, cs: seq<Checkpoint>)
    requires Tidy(w.store)
    ensures Tidy(Replay(w.store, BeginRecovery(w.store, id, owner, now, ttlMs, maxRetries, digest, cs).ops))
  {
    hide Apply, Replay, SafeAll, Tidy, ClosePlan, Reclaim, UsablePredecessor, LeaseBelongs, Predecessor,
         AbsoluteDeadline;
    var s := w.store;
    HarmlessIsSafe(w, []);
    CalmRunKeepsTidy(w, []);
    if id in s.requests && !Terminal(s.requests[id].stage) {
      var claim := Bookkeeping(Claim(Ownership(id, owner, now, now + ttlMs), now));
      var letGo := [claim] + [Bookkeeping(Release(id, owner))];
      HarmlessIsSafe(w, letGo);
      CalmRunKeepsTidy(w, letGo);
      ClosePlanKeepsTidy(s, id, owner, claim, Cancelled, UserCancellation);
      match Decide(SnapshotOf(s, id, cs), now, maxRetries, digest)
      case AlreadyTerminal(_) =>
      case WaitActiveOwner(_, _) =>
      case Cancel(_) =>
      case Fail(code, _) => ClosePlanKeepsTidy(s, id, owner, claim, Failed, code);
      case Resume(from, _, _, _, _, _) =>
        ResumeIsSafe(w, id, claim, from);
        ResumeIsCalm(s, id, claim, from);
        CalmRunKeepsTidy(w, [claim] + (Reclaim(s, id) + []));
        if from != Queued {
          CalmRunKeepsTidy(w, [claim] + (Reclaim(s, id) + [Requests(Transition(id, from, Queued))]));
        }
    }
  }

  lemma ResumeIsCalm(s: Store, id: RequestId, claim: Op, from: Stage)
    requires claim.Bookkeeping?
    ensures var ops := [claim] + (Reclaim(s, id) + [Requests(Transition(id, from, Queued))]);
            forall i :: 0 <= i < |ops| ==> AlwaysCalm(ops[i])
    ensures var ops := [claim] + (Reclaim(s, id) + []);
            forall i :: 0 <= i < |ops| ==> AlwaysCalm(ops[i])
  {}

  lemma ClosePlanKeepsTidy(s: Store, id: RequestId, owner: OwnerId, claim: Op, stage: Stage, code: ErrorCode)
    requires Tidy(s) && claim.Bookkeeping?
    requires id in s.requests && !Terminal(s.requests[id].stage)
    ensures Tidy(Replay(s, [claim] + ClosePlan(s, id, owner, stage, code).ops))
  {
    hide Replay, ClosePlan;
    ClosePlanEffect(s, id, owner, claim, stage, code);
    ShutKeepsTidy(s, Replay(s, [claim] + ClosePlan(s, id, owner, stage, code).ops), id, stage);
  }

  lemma ShutKeepsTidy(s: Store, t: Store, id: RequestId, stage: Stage)
    requires Tidy(s)
    requires OnlyRequest(s, t, id) && id !in t.leases && Within(t.leases, s.leases)
    requires (forall k :: k in t.checkpoints ==> k.0 != id) && Within(t.checkpoints, s.checkpoints)
    requires t.workers == s.workers
    ensures Tidy(t)
  {}
}
