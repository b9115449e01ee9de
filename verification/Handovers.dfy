/**
 * What executors are handed: the identity of a lease that was issued for the run,
 * the run's manifest, and the very checkpoint the dispatch found for the segment
 * before, which has its whole chain of custody behind it.
 */
module Handovers {
  import opened Options
  import opened DurableTypes
  import opened Store
  import opened Steps
  import opened Discipline
  import opened Runs
  import opened RunProofs
  import opened Traces
  import opened CoordinatorSystem
  import opened CoordinatorTheorems
  import opened StoreChanges
  import opened AttemptOutcomes

  /** The run waits for an executor that was handed this lease and the input its dispatch found at `j`. */
  predicate Handed(log: seq<Op>, r: Run, j: nat, l: Lease)
    requires Pending(r.pc)
  {
    && IssuesAt(log, j, l) && HadInput(log, j, l)
    && l.requestId == r.id && l.segment == r.pc.segment && l.manifestDigest == r.cfg.manifestDigest
    && r.pc.assignment == Assignment(IdentityOf(l), r.cfg.manifestDigest,
                                     if l.segment == 0 then None else Some(PickedUp(log, j, l)))
  }

  ghost predicate HandedOver(log: seq<Op>, r: Run) {
    Pending(r.pc) ==> exists j: nat, l: Lease :: Handed(log, r, j, l)
  }

  ghost predicate AllHandedOver(s: State) {
    forall x :: x in s.runs ==> HandedOver(s.log, s.runs[x].run)
  }

  lemma HandedWasIssued(log: seq<Op>, r: Run, j: nat, l: Lease)
    requires Pending(r.pc) && Handed(log, r, j, l)
    ensures IssuesAt(log, j, l) && HadInput(log, j, l)
  {
    hide DoAll;
  }

  lemma LongerLogsKeepIt(log: seq<Op>, ops: seq<Op>, r: Run)
    requires HandedOver(log, r)
    ensures HandedOver(log + ops, r)
  {
    hide DoAll;
    if Pending(r.pc) {
      var j: nat, l: Lease :| Handed(log, r, j, l);
      assert (log + ops)[..j] == log[..j];
      assert Handed(log + ops, r, j, l);
    }
  }

  /** A dispatch that executes issues one lease, before which no checkpoint moves, and hands over what it found. */
  lemma DispatchIssues(cfg: Config, s: Store, id: RequestId, segment: nat, attempt: nat, aborted: bool,
                       x: WorkerId, attemptId: AttemptId, lease: LeaseId, now: nat)
    returns (before: seq<Op>, l: Lease, after: seq<Op>)
    requires x in s.workers
    requires Dispatch(cfg, s, id, segment, attempt, aborted, Some(x), attemptId, lease, now).out.Execute?
    ensures var step := Dispatch(cfg, s, id, segment, attempt, aborted, Some(x), attemptId, lease, now);
            && step.ops == before + ([Leases(PutLease(l))] + after)
            && Replay(s, before).checkpoints == s.checkpoints
            && l.requestId == id && l.segment == segment && l.manifestDigest == cfg.manifestDigest
            && (segment > 0 ==> (id, segment - 1) in s.checkpoints)
            && step.out.assignment == Assignment(IdentityOf(l), cfg.manifestDigest,
                                                 if segment == 0 then None else Some(s.checkpoints[(id, segment - 1)]))
  {
    hide Replay, Apply, Assign, Requeue, Finalize, DropExpired, WithoutStale, InputReady, UniqueLeaseIds;
    ExecutesWhenReady(cfg, s, id, segment, attempt, aborted, x, attemptId, lease, now);
    DispatchAssigns(cfg, s, id, segment, attempt, x, attemptId, lease, now);
    RequeueRequeues(s, id);
    before := Requeue(s, id);
    l, after := AssignIssues(cfg, Requeued(s, id), id, segment, s.workers[x], attemptId, lease, now);
    OpenWithInput(cfg, s, id, segment, now);
  }

  lemma ExecutesWhenReady(cfg: Config, s: Store, id: RequestId, segment: nat, attempt: nat, aborted: bool,
                          x: WorkerId, attemptId: AttemptId, lease: LeaseId, now: nat)
    requires x in s.workers
    requires Dispatch(cfg, s, id, segment, attempt, aborted, Some(x), attemptId, lease, now).out.Execute?
    ensures attempt <= cfg.maxRetries && !aborted && !Over(s, id) && id !in s.cancellations
    ensures InputReady(s, cfg, id, segment, now)
  {
    hide Replay, Apply, Assign, Requeue, Finalize, DropExpired;
  }

  lemma AssignIssues(cfg: Config, s: Store, id: RequestId, segment: nat, w: Worker, attemptId: AttemptId,
                     lease: LeaseId, now: nat)
    returns (l: Lease, after: seq<Op>)
    requires Assign(cfg, s, id, segment, w, attemptId, lease, now).out.Execute?
    requires segment > 0 ==> (id, segment - 1) in s.checkpoints
    ensures var step := Assign(cfg, s, id, segment, w, attemptId, lease, now);
            && step.ops == [Leases(PutLease(l))] + after
            && l.requestId == id && l.segment == segment && l.manifestDigest == cfg.manifestDigest
            && step.out.assignment == Assignment(IdentityOf(l), cfg.manifestDigest,
                                                 if segment == 0 then None else Some(s.checkpoints[(id, segment - 1)]))
  {
    hide Mark;
    l := Issue(cfg, w, id, segment, attemptId, lease, now);
    after := Assign(cfg, s, id, segment, w, attemptId, lease, now).ops[1..];
  }

  /**
   * Every dispatch that executes hands over the identity of the lease it leaves stored, the
   * configured manifest, and the checkpoint stored for the segment before, if there is one.
   */
  lemma ExecutedAssignments(cfg: Config, s: Store, id: RequestId, segment: nat, attempt: nat, aborted: bool,
                            pick: Option<WorkerId>, attemptId: AttemptId, lease: LeaseId, now: nat)
    requires pick.Some? ==> pick.value in s.workers && s.workers[pick.value].id == pick.value
    requires Dispatch(cfg, s, id, segment, attempt, aborted, pick, attemptId, lease, now).out.Execute?
    ensures var step := Dispatch(cfg, s, id, segment, attempt, aborted, pick, attemptId, lease, now);
            var t, a := Replay(s, step.ops), step.out.assignment;
            && a.manifestDigest == cfg.manifestDigest
            && (segment == 0 ==> a.checkpoint == None)
            && (segment > 0 ==>
                  (id, segment - 1) in s.checkpoints && a.checkpoint == Some(s.checkpoints[(id, segment - 1)]))
            && pick.Some? && id in t.leases && a.identity == IdentityOf(t.leases[id])
            && t.leases[id] == Lease(lease, id, attemptId, pick.value, s.workers[pick.value].generation, segment,
                                     cfg.manifestDigest, now, now + cfg.leaseTtlMs)
  {
    hide Replay, Apply, Dispatch, Assign, InputReady;
    ExecutesWithWorker(cfg, s, id, segment, attempt, aborted, pick, attemptId, lease, now);
    ExecutesWhenReady(cfg, s, id, segment, attempt, aborted, pick.value, attemptId, lease, now);
    DispatchHandsOver(cfg, s, id, segment, attempt, pick.value, attemptId, lease, now);
    OpenWithInput(cfg, s, id, segment, now);
  }

  /** A run that comes to wait for an executor has handed it its input. */
  lemma NewHandover(s: State, e: Event)
    requires Inv(s) && Enabled(s, e) && e.StepRun? && s.runs[e.slot].run.pc.AtAttempt?
    ensures HandedOver(s.log + Writes(s, e), RunsAfter(s, e)[e.slot].run)
  {
    hide DoAll, Replay, Dispatch, Lists, ListedFor, PickedFor, Count, Handed, Inv;
    var r, c, t := s.runs[e.slot].run, e.choice, Now(s).store;
    var q := RunsAfter(s, e)[e.slot].run;
    if Pending(q.pc) {
      ExecutesWithWorker(r.cfg, t, r.id, r.pc.segment, r.pc.attempt, r.aborted, c.pick, c.attemptId, c.lease, s.clock);
      var before, l, after := DispatchIssues(r.cfg, t, r.id, r.pc.segment, r.pc.attempt, r.aborted, c.pick.value,
                                             c.attemptId, c.lease, s.clock);
      HandedAt(s, e, q, before, l, after);
    }
  }

  lemma ExecutesWithWorker(cfg: Config, s: Store, id: RequestId, segment: nat, attempt: nat, aborted: bool,
                           pick: Option<WorkerId>, attemptId: AttemptId, lease: LeaseId, now: nat)
    requires pick.Some? ==> pick.value in s.workers
    requires Dispatch(cfg, s, id, segment, attempt, aborted, pick, attemptId, lease, now).out.Execute?
    ensures pick.Some?
  {
    hide Replay, Assign, Requeue, Finalize, DropExpired;
  }

  lemma HandedAt(s: State, e: Event, q: Run, before: seq<Op>, l: Lease, after: seq<Op>)
    requires Inv(s) && Enabled(s, e) && Pending(q.pc)
    requires Writes(s, e) == before + ([Leases(PutLease(l))] + after)
    requires Replay(Now(s).store, before).checkpoints == Now(s).store.checkpoints
    requires l.requestId == q.id && l.segment == q.pc.segment && l.manifestDigest == q.cfg.manifestDigest
    requires l.segment > 0 ==> (l.requestId, l.segment - 1) in Now(s).store.checkpoints
    requires q.pc.assignment == Assignment(IdentityOf(l), q.cfg.manifestDigest,
                                           if l.segment == 0 then None
                                           else Some(Now(s).store.checkpoints[(l.requestId, l.segment - 1)]))
    ensures HandedOver(s.log + Writes(s, e), q)
  {
    hide DoAll, Replay, Enabled, Writes, SafeAll, Safe, Apply;
    var log, j := s.log + Writes(s, e), |s.log| + |before|;
    EventIsSafe(s, e);
    LogLeads(s, Writes(s, e));
    assert log[..j] == s.log + before && log[j] == Leases(PutLease(l));
    DoAllAppend(Origin, s.log, before);
    DoAllReplays(Now(s), before);
    EachWriteIsSafe(log, j);
    SafeLeaseHadInput(log, j, l);
    assert Handed(log, q, j, l);
  }

  lemma SafeLeaseHadInput(log: seq<Op>, j: nat, l: Lease)
    requires j < |log| && Safe(At(log, j), Leases(PutLease(l)))
    ensures HadInput(log, j, l)
  {
    hide DoAll;
  }

  /** An assignment stays the same from the dispatch to the end of its attempt. */
  lemma StepKeepsHandover(s: State, e: Event)
    requires Inv(s) && Enabled(s, e) && e.StepRun? && HandedOver(s.log, s.runs[e.slot].run)
    ensures HandedOver(s.log + Writes(s, e), RunsAfter(s, e)[e.slot].run)
  {
    hide DoAll, Replay, Dispatch, Lists, ListedFor, PickedFor, Count, Handed, Inv, AcceptEntry, AcceptCommit, Recover,
      Continue, SegmentHead, SegmentTail, EndRun, Writes;
    var r, q := s.runs[e.slot].run, RunsAfter(s, e)[e.slot].run;
    if r.pc.AtAttempt? {
      NewHandover(s, e);
    } else if Pending(q.pc) {
      PendingStays(Now(s).store, r, s.clock, e.choice);
      LongerLogsKeepIt(s.log, Writes(s, e), r);
      SameHandover(s.log + Writes(s, e), r, q);
    }
  }

  lemma PendingStays(s: Store, r: Run, now: nat, c: Choice)
    requires c.pick.Some? ==> c.pick.value in s.workers
    requires !r.pc.AtAttempt? && Pending(Stretch(s, r, now, c).out)
    ensures Pending(r.pc)
    ensures var pc := Stretch(s, r, now, c).out; pc.assignment == r.pc.assignment && pc.segment == r.pc.segment
  {
    hide Dispatch, AcceptEntry, AcceptCommit, Recover, Continue, SegmentHead, SegmentTail, EndRun;
    match r.pc
    case Executing(_, _, a) =>
      if c.settled.Threw? {
        RecoverNeverExecutes(r.cfg, s, a, c.settled.code, r.aborted);
      }
    case Judged(_, _, a, acceptance) => ContinueNeverExecutes(r.cfg, s, a, acceptance, r.aborted, c.listed);
    case _ =>
  }

  lemma RecoverNeverExecutes(cfg: Config, s: Store, a: Assignment, code: ErrorCode, aborted: bool)
    ensures !Recover(cfg, s, a, code, aborted).out.Execute?
  {
    hide Replay, Finalize;
  }

  lemma ContinueNeverExecutes(cfg: Config, s: Store, a: Assignment, acceptance: Acceptance, aborted: bool,
                              ids: seq<LeaseId>)
    ensures !Continue(cfg, s, a, acceptance, aborted, ids).out.Execute?
  {
    hide Replay, Finalize, Isolate, Recover;
    RecoverNeverExecutes(cfg, Replay(s, MarkIdle(s, a.identity.workerId, a.identity.generation)), a,
                         StateTransitionViolation, aborted);
  }

  lemma SameHandover(log: seq<Op>, r: Run, q: Run)
    requires HandedOver(log, r) && Pending(r.pc) && Pending(q.pc)
    requires q.id == r.id && q.cfg == r.cfg && q.pc.assignment == r.pc.assignment && q.pc.segment == r.pc.segment
    ensures HandedOver(log, q)
  {
    var j: nat, l: Lease :| Handed(log, r, j, l);
    assert Handed(log, q, j, l);
  }

  lemma EventKeepsHandovers(s: State, e: Event, x: nat)
    requires Inv(s) && Enabled(s, e) && AllHandedOver(s) && x in RunsAfter(s, e)
    ensures HandedOver(s.log + Writes(s, e), RunsAfter(s, e)[x].run)
  {
    hide DoAll, Replay, Lists, ListedFor, PickedFor, Submit, CancelRequest, BeginRecovery, Stretch, Count, Writes, Inv,
      HandedOver;
    if e.StepRun? && x == e.slot {
      StepKeepsHandover(s, e);
    } else if x in s.runs {
      LongerLogsKeepIt(s.log, Writes(s, e), s.runs[x].run);
      PlaceKeepsHandover(s.log + Writes(s, e), s.runs[x].run, RunsAfter(s, e)[x].run);
    } else {
      NothingHandedYet(s.log + Writes(s, e), RunsAfter(s, e)[x].run);
    }
  }

  lemma NothingHandedYet(log: seq<Op>, r: Run)
    requires r.pc.AtSegment?
    ensures HandedOver(log, r)
  {}

  predicate SamePlace(r: Run, q: Run) { q.id == r.id && q.cfg == r.cfg && q.pc == r.pc }

  lemma PlaceKeepsHandover(log: seq<Op>, r: Run, q: Run)
    requires HandedOver(log, r) && SamePlace(r, q)
    ensures HandedOver(log, q)
  {
    if Pending(q.pc) {
      SameHandover(log, r, q);
    }
  }

  lemma NextKeepsHandovers(s: State, a: Action, t: State)
    requires Inv(s) && Next(s, a, t) && AllHandedOver(s)
    ensures AllHandedOver(t)
  {
    hide DoAll, Inv, HandedOver, Enabled, Writes, RunsAfter, PushedAfter, NodeOf;
    forall x | x in t.runs ensures HandedOver(t.log, t.runs[x].run) {
      match a
      case Whole(e) => EventKeepsHandovers(s, e, x);
      case TornAfter(e, n) => LongerLogsKeepIt(s.log, Writes(s, e)[..n], s.runs[x].run);
      case Crash(_) =>
    }
  }

  lemma NothingAtTheStart()
    ensures AllHandedOver(Start)
  {}

  lemma {:induction false} AlwaysHandedOver(states: seq<State>, actions: seq<Action>, i: nat)
    requires Behaviour(states, actions) && i < |states|
    ensures AllHandedOver(states[i])
  {
    hide Next, Inv, AllHandedOver;
    if i > 0 {
      AlwaysHandedOver(states, actions, i - 1);
      BehaviourHolds(states, actions, i - 1);
      NextKeepsHandovers(states[i - 1], actions[i - 1], states[i]);
    } else {
      NothingAtTheStart();
    }
  }

  /**
   * In every behaviour an executor works with the identity of a lease that was issued
   * for its run and segment, the run's manifest, and the very checkpoint of the segment
   * before that the dispatch found: unexpired, of this manifest, and with its whole
   * chain of custody behind it.
   */
  lemma ExecutorsHoldTheirInput(states: seq<State>, actions: seq<Action>, i: nat, x: nat) returns (j: nat, l: Lease)
    requires Behaviour(states, actions) && i < |states| && x in states[i].runs && Pending(states[i].runs[x].run.pc)
    ensures Handed(states[i].log, states[i].runs[x].run, j, l)
    ensures l.segment > 0 ==> Custody(states[i].log, l.requestId, l.segment - 1, PickedUp(states[i].log, j, l), j)
  {
    hide Next, DoAll, Custody, Handed, Behaviour;
    AlwaysHandedOver(states, actions, i);
    var log, r := states[i].log, states[i].runs[x].run;
    j, l :| Handed(log, r, j, l);
    HandedWasIssued(log, r, j, l);
    if l.segment > 0 {
      Points(states, actions, i, i);
      StoredHasCustody(log, j, l.requestId, l.segment - 1);
    }
  }
}
