/**
 * The promises of the durable coordinator, for every behaviour of any number
 * of coordinators: every interleaving of their atomic stretches, crashes at
 * awaits, and crashes torn inside a stretch.
 */
module CoordinatorTheorems {
  import opened RequestStages
  import opened DurableTypes
  import opened Store
  import opened Steps
  import opened Discipline
  import opened Progress
  import opened Boundaries
  import opened Runs
  import opened RunProofs
  import opened Traces
  import opened CoordinatorSystem

  function StoreOf(s: State): Store { Now(s).store }

  lemma Points(states: seq<State>, actions: seq<Action>, i: nat, j: nat)
    requires Behaviour(states, actions) && i <= j < |states|
    ensures Disciplined(states[j].log) && |states[i].log| <= |states[j].log|
    ensures At(states[j].log, |states[i].log|) == Now(states[i])
    ensures At(states[j].log, |states[j].log|) == Now(states[j])
  {
    hide Next;
    BehaviourHolds(states, actions, j);
    LogsGrow(states, actions, i, j);
    LogsGrow(states, actions, j, j);
  }

  /** A result exists exactly while the request is completed, and neither ever changes again. */
  lemma ExactlyOnceCompletion(states: seq<State>, actions: seq<Action>, i: nat, j: nat, id: RequestId)
    requires Behaviour(states, actions) && i <= j < |states|
    ensures id in StoreOf(states[i]).results <==>
              id in StoreOf(states[i]).requests && StoreOf(states[i]).requests[id].stage == Completed
    ensures id in StoreOf(states[i]).results ==>
              id in StoreOf(states[j]).results && StoreOf(states[j]).results[id] == StoreOf(states[i]).results[id]
    ensures id in StoreOf(states[i]).requests && Terminal(StoreOf(states[i]).requests[id].stage) ==>
              id in StoreOf(states[j]).requests
                  && StoreOf(states[j]).requests[id].stage == StoreOf(states[i]).requests[id].stage
  {
    hide Next, Behaviour, DoAll;
    Points(states, actions, i, j);
    var log, m, n := states[j].log, |states[i].log|, |states[j].log|;
    ResultIffCompleted(log, m, id);
    if id in StoreOf(states[i]).results {
      ResultIsFinal(log, m, n, id);
    }
    if id in StoreOf(states[i]).requests && Terminal(StoreOf(states[i]).requests[id].stage) {
      TerminalIsFinal(log, m, n, id);
    }
  }

  /** The stages a request has been in form a path of the state machine, with only recovery's extra edge. */
  lemma StagesFollowTheMachine(states: seq<State>, actions: seq<Action>, i: nat, id: RequestId)
    requires Behaviour(states, actions) && i < |states|
    ensures StagePath(Stages(states[i].log, id))
    ensures id in StoreOf(states[i]).requests ==>
              var stages := Stages(states[i].log, id);
              stages != [] && stages[|stages| - 1] == StoreOf(states[i]).requests[id].stage
  {
    hide Next, Behaviour, DoAll;
    Points(states, actions, i, i);
    StagesFormAPath(states[i].log, id);
  }

  /** Once a cancellation is durable no completion follows; once acknowledged, the request is stopped. */
  lemma CancellationHolds(states: seq<State>, actions: seq<Action>, i: nat, j: nat, id: RequestId)
    requires Behaviour(states, actions) && i <= j < |states|
    requires id in StoreOf(states[i]).cancellations
    ensures id !in StoreOf(states[j]).results
    ensures StoreOf(states[i]).cancellations[id].acknowledgedAt.Some? ==>
              && id in StoreOf(states[j]).requests && StoreOf(states[j]).requests[id].stage == Cancelled
              && id !in StoreOf(states[j]).leases
  {
    hide Next, Behaviour, DoAll;
    Points(states, actions, i, j);
    var log, m, n := states[j].log, |states[i].log|, |states[j].log|;
    CancellationPreventsCompletion(log, m, n, id);
    if StoreOf(states[i]).cancellations[id].acknowledgedAt.Some? {
      AcknowledgedIsStopped(log, m, n, id);
    }
  }

  /** Behind every result stands its whole chain of leases and relayed checkpoints. */
  lemma ResultsHaveCustody(states: seq<State>, actions: seq<Action>, i: nat, id: RequestId)
      returns (commit: nat, j: nat, l: Lease)
    requires Behaviour(states, actions) && i < |states|
    requires id in StoreOf(states[i]).results
    ensures var log := states[i].log;
            && commit < |log| && CompletesAt(log, commit, id)
            && id in At(log, commit).store.requests
            && l.segment + 1 == At(log, commit).store.requests[id].totalSegments
            && HeldFrom(log, j, commit, id, l.segment, l) && HadInput(log, j, l)
            && (l.segment > 0 ==> Custody(log, id, l.segment - 1, PickedUp(log, j, l), j))
  {
    hide Next, Behaviour, DoAll, Custody;
    Points(states, actions, i, i);
    commit := ResultWasCommitted(states[i].log, |states[i].log|, id);
    j, l := CompletionHasCustody(states[i].log, commit, id);
  }

  predicate Untorn(actions: seq<Action>) {
    forall i :: 0 <= i < |actions| ==> !actions[i].TornAfter?
  }

  lemma {:induction false} UntornStays(states: seq<State>, actions: seq<Action>, i: nat)
    requires Behaviour(states, actions) && i < |states| && Untorn(actions[..i])
    ensures !states[i].torn
  {
    if i > 0 {
      assert Untorn(actions[..i - 1]) by {
        assert forall k :: 0 <= k < i - 1 ==> actions[..i - 1][k] == actions[..i][k];
      }
      UntornStays(states, actions, i - 1);
      assert !actions[..i][i - 1].TornAfter?;
      hide Enabled, Writes, RunsAfter, PushedAfter;
      assert Next(states[i - 1], actions[i - 1], states[i]);
    }
  }

  /** Between whole stretches a closed request holds no lease and no checkpoint. */
  lemma ClosedRequestsHoldNothing(states: seq<State>, actions: seq<Action>, i: nat, id: RequestId)
    requires Behaviour(states, actions) && i < |states| && Untorn(actions[..i])
    requires id in StoreOf(states[i]).requests && Terminal(StoreOf(states[i]).requests[id].stage)
    ensures id !in StoreOf(states[i]).leases
    ensures forall k :: (id, k) !in StoreOf(states[i]).checkpoints
  {
    hide Next, Behaviour, DoAll, Disciplined, RunsOk;
    UntornStays(states, actions, i);
    BehaviourHolds(states, actions, i);
  }

  /** Between whole stretches every live lease names the generation its worker has now. */
  lemma LeasesAreFenced(states: seq<State>, actions: seq<Action>, i: nat, id: RequestId)
    requires Behaviour(states, actions) && i < |states| && Untorn(actions[..i])
    requires id in StoreOf(states[i]).leases
    ensures var l := StoreOf(states[i]).leases[id];
            l.workerId in StoreOf(states[i]).workers
                && StoreOf(states[i]).workers[l.workerId].generation == l.generation
  {
    hide Next, Behaviour, DoAll, Disciplined, RunsOk;
    UntornStays(states, actions, i);
    BehaviourHolds(states, actions, i);
  }

  /** A generation that was reconnected over, removed or isolated never holds a lease again. */
  lemma RetiredGenerationsHoldNothing(states: seq<State>, actions: seq<Action>, i: nat, j: nat, g: Generation,
                                      id: RequestId)
    requires Behaviour(states, actions) && i <= j < |states| && Untorn(actions[..j])
    requires g in Now(states[i]).past.registered && !Current(StoreOf(states[i]), g)
    requires id in StoreOf(states[j]).leases
    ensures StoreOf(states[j]).leases[id].generation != g
  {
    hide Next, Behaviour, DoAll;
    Points(states, actions, i, j);
    RetiredStaysRetired(states[j].log, |states[i].log|, |states[j].log|, g);
    LeasesAreFenced(states, actions, j, id);
  }

  // --- Budget and termination of runs ---

  /** However the run went, it appended at most one attempt for each segment left and each retry. */
  lemma AttemptsAreBudgeted(states: seq<State>, actions: seq<Action>, i: nat, x: nat)
    requires Behaviour(states, actions) && i < |states| && x in states[i].runs
    ensures var r := states[i].runs[x].run;
            && r.retried <= r.cfg.maxRetries
            && r.appended <= r.total - r.start + r.cfg.maxRetries
            && r.id in StoreOf(states[i]).requests && r.total == StoreOf(states[i]).requests[r.id].totalSegments
  {
    hide Next, Behaviour, DoAll;
    BehaviourHolds(states, actions, i);
    assert RunOk(StoreOf(states[i]), states[i].runs[x].run);
  }

  /** A finished run has closed its request, unless another recovery owner took over. */
  lemma FinishedRunsCloseTheirRequest(states: seq<State>, actions: seq<Action>, i: nat, x: nat)
    requires Behaviour(states, actions) && i < |states| && x in states[i].runs
    requires states[i].runs[x].run.pc.Finished? && !states[i].runs[x].run.pc.lost
    ensures var id := states[i].runs[x].run.id;
            id in StoreOf(states[i]).requests && Terminal(StoreOf(states[i]).requests[id].stage)
  {
    hide Next, Behaviour, DoAll;
    BehaviourHolds(states, actions, i);
    assert RunOk(StoreOf(states[i]), states[i].runs[x].run);
  }

  predicate StepsRun(a: Action, x: nat) { a.Whole? && a.event.StepRun? && a.event.slot == x }

  function StepsOf(actions: seq<Action>, x: nat): nat {
    if actions == [] then 0 else (if StepsRun(actions[0], x) then 1 else 0) + StepsOf(actions[1..], x)
  }

  /** One action either advances a run, burning its fuel, or leaves its fuel alone. */
  lemma ActionBurnsFuel(s: State, a: Action, t: State, x: nat)
    requires Inv(s) && Next(s, a, t)
    requires x in s.runs && x in t.runs
    ensures Fuel(t.runs[x].run) + (if StepsRun(a, x) then 1 else 0) <= Fuel(s.runs[x].run)
  {
    hide DoAll, Disciplined, Tidy, Submit, CancelRequest, Stretch, Lists, ListedFor, PickedFor, Fuel, Writes, NodeOf;
    assert RunOk(StoreOf(s), s.runs[x].run);
    var r := s.runs[x].run;
    AbortsKeepFuel(r);
    if StepsRun(a, x) {
      StretchBurnsFuel(StoreOf(s), r, s.clock, a.event.choice);
    }
  }

  lemma AbortsKeepFuel(r: Run)
    ensures forall kind :: Fuel(AbortedBy(r, kind)) == Fuel(r)
  {}

  /**
   * A run that is neither lost to a crash nor left waiting takes at most its
   * fuel in stretches, whatever everyone else does in between.
   */
  lemma {:induction false} RunsEnd(states: seq<State>, actions: seq<Action>, i: nat, j: nat, x: nat)
    requires Behaviour(states, actions) && i <= j < |states|
    requires forall k :: i <= k <= j ==> x in states[k].runs
    ensures StepsOf(actions[i..j], x) + Fuel(states[j].runs[x].run) <= Fuel(states[i].runs[x].run)
    ensures StepsOf(actions[i..j], x) == Fuel(states[i].runs[x].run) ==> states[j].runs[x].run.pc.Finished?
    decreases j - i
  {
    hide Next, DoAll, Fuel, Enabled;
    BehaviourHolds(states, actions, j);
    assert RunOk(StoreOf(states[j]), states[j].runs[x].run);
    FuelIsNatural(states[j].runs[x].run);
    if i < j {
      BehaviourHolds(states, actions, i);
      ActionBurnsFuel(states[i], actions[i], states[i + 1], x);
      RunsEnd(states, actions, i + 1, j, x);
      assert actions[i..j][1..] == actions[i + 1..j];
    }
  }
}
