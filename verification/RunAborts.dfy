/** What aborting a run comes to: it stays aborted, keeps the cause that counts, and assigns no worker again. */
module RunAborts {
  import opened Options
  import opened RequestStages
  import opened DurableTypes
  import opened Store
  import opened Steps
  import opened Discipline
  import opened Runs
  import opened RunProofs
  import opened CoordinatorSystem
  import opened CoordinatorTheorems
  import opened Handovers

  /** Cancelling a request that is neither completed nor failed aborts every unfinished run of it on that node. */
  lemma CancellationsAbortRuns(s: State, e: Event, t: State, x: nat)
    requires Next(s, Whole(e), t) && e.AskCancel? && x in s.runs && Unfinished(s.runs[x], e.node, e.id)
    requires e.id in StoreOf(s).requests && StoreOf(s).requests[e.id].stage !in {Completed, Failed}
    ensures x in t.runs && t.runs[x].run == s.runs[x].run.(aborted := true, kind := ByUser)
  {
    hide DoAll, Finalize, Replay;
  }

  /** An abort is for the cause given last, but losing the claim never hides an abort that came before. */
  lemma AbortsKeepTheirCause(s: State, e: Event, t: State)
    requires Next(s, Whole(e), t) && e.AbortRun?
    ensures var r := s.runs[e.slot].run;
            && e.slot in t.runs
            && t.runs[e.slot].run == r.(aborted := true,
                                        kind := if r.aborted && e.kind == ByOwnershipLoss then r.kind else e.kind)
    ensures t.log == s.log
  {
    hide DoAll;
  }

  lemma AbortedStays(s: State, a: Action, t: State, x: nat)
    requires Next(s, a, t) && x in s.runs && x in t.runs && s.runs[x].run.aborted
    ensures t.runs[x].run.aborted
  {
    hide DoAll, Submit, CancelRequest, BeginRecovery, Stretch, Count, Lists, ListedFor, PickedFor, Writes, NodeOf;
  }

  lemma {:induction false} AbortedForGood(states: seq<State>, actions: seq<Action>, i: nat, j: nat, x: nat)
    requires Behaviour(states, actions) && i <= j < |states|
    requires (forall k :: i <= k <= j ==> x in states[k].runs) && states[i].runs[x].run.aborted
    ensures states[j].runs[x].run.aborted
    decreases j - i
  {
    hide Next;
    if i < j {
      AbortedForGood(states, actions, i, j - 1, x);
      AbortedStays(states[j - 1], actions[j - 1], states[j], x);
    }
  }

  /** An aborted run hands no executor anything: from no control point does it come to wait for one. */
  lemma AbortedRunsAssignNothing(s: Store, r: Run, now: nat, c: Choice)
    requires r.aborted && !Pending(r.pc) && (c.pick.Some? ==> c.pick.value in s.workers)
    ensures !Pending(Stretch(s, r, now, c).out)
  {
    hide AcceptEntry, AcceptCommit, Recover, Continue, SegmentHead, SegmentTail, EndRun, Dispatch;
    if r.pc.AtAttempt? {
      AbortedDispatch(r.cfg, s, r.id, r.pc.segment, r.pc.attempt, c.pick, c.attemptId, c.lease, now);
    }
  }

  lemma AbortedDispatch(cfg: Config, s: Store, id: RequestId, segment: nat, attempt: nat, pick: Option<WorkerId>,
                        attemptId: AttemptId, lease: LeaseId, now: nat)
    requires pick.Some? ==> pick.value in s.workers
    ensures var step := Dispatch(cfg, s, id, segment, attempt, true, pick, attemptId, lease, now);
            step.ops == [] && !step.out.Execute?
  {
    hide Assign, Finalize;
  }

  /**
   * In every behaviour, once a run is aborted it comes to wait for no other executor: whatever
   * it waits for later, it was handed before.
   */
  lemma {:induction false} AbortedRunsWindDown(states: seq<State>, actions: seq<Action>, i: nat, j: nat, x: nat)
    requires Behaviour(states, actions) && i <= j < |states|
    requires (forall k :: i <= k <= j ==> x in states[k].runs) && states[i].runs[x].run.aborted
    ensures Pending(states[j].runs[x].run.pc) ==>
              && Pending(states[i].runs[x].run.pc)
              && states[j].runs[x].run.pc.assignment == states[i].runs[x].run.pc.assignment
    decreases j - i
  {
    hide Next;
    if i < j {
      AbortedRunsWindDown(states, actions, i, j - 1, x);
      AbortedForGood(states, actions, i, j - 1, x);
      WindsDown(states[j - 1], actions[j - 1], states[j], x);
    }
  }

  lemma WindsDown(s: State, a: Action, t: State, x: nat)
    requires Next(s, a, t) && x in s.runs && x in t.runs && s.runs[x].run.aborted
    ensures Pending(t.runs[x].run.pc) ==>
              Pending(s.runs[x].run.pc) && t.runs[x].run.pc.assignment == s.runs[x].run.pc.assignment
  {
    hide DoAll, Submit, CancelRequest, BeginRecovery, Stretch, Count, Lists, ListedFor, PickedFor, Writes, NodeOf;
    if StepsRun(a, x) {
      var r, c := s.runs[x].run, a.event.choice;
      if !Pending(r.pc) {
        AbortedRunsAssignNothing(StoreOf(s), r, s.clock, c);
      } else if Pending(t.runs[x].run.pc) {
        PendingStays(StoreOf(s), r, s.clock, c);
      }
    }
  }
}
