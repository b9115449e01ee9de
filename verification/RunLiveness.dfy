/**
 * No run is ever stuck: whatever the executor answers, an unfinished run has a
 * stretch it can take, and its own stretches bring it to its end.
 */
module RunLiveness {
  import opened Options
  import opened DurableTypes
  import opened Steps
  import opened Discipline
  import opened Listings
  import opened Runs
  import opened RunProofs
  import opened CoordinatorSystem
  import opened Traces
  import opened Boundaries
  import opened CoordinatorTheorems

  // --- Every unfinished run can step ---

  function ListedOf(r: Run, settled: Settlement): (WorkerId, Generation) {
    match r.pc
    case Executing(_, _, _) =>
      if settled.Answered? && settled.result.WorkerResult?
      then (settled.result.identity.workerId, settled.result.identity.generation) else ("", "")
    case Validating(_, _, _, identity, _, _) => (identity.workerId, identity.generation)
    case Judged(_, _, a, _) => (a.identity.workerId, a.identity.generation)
    case _ => ("", "")
  }

  /** Whatever the executor answered and whatever the check found, the run's next stretch is enabled. */
  lemma UnfinishedRunsCanStep(s: State, x: nat, settled: Settlement, intact: bool) returns (c: Choice)
    requires x in s.runs && !s.runs[x].run.pc.Finished?
    ensures c.settled == settled && c.intact == intact && Enabled(s, StepRun(x, c))
  {
    hide DoAll, Lists, Picked;
    var w, r := Now(s), s.runs[x].run;
    var lease := FreshIdentifier(w.past.issued.Keys);
    var (worker, generation) := ListedOf(r, settled);
    var listed := ListingExists(w.store, worker, generation);
    var pick: Option<WorkerId> := None;
    if r.pc.AtAttempt? && r.pc.segment < |r.cfg.segmentVramMB| {
      pick := PickExists(w.store, r.cfg.segmentVramMB[r.pc.segment]);
      PickIsStored(w.store, r.cfg.segmentVramMB[r.pc.segment], pick);
    }
    c := Choice(pick, "", lease, settled, intact, listed);
  }

  // --- And so reaches its end ---

  /** Actions that follow one another from a state on. */
  ghost predicate Leads(states: seq<State>, actions: seq<Action>) {
    |states| == |actions| + 1 && forall i :: 0 <= i < |actions| ==> Next(states[i], actions[i], states[i + 1])
  }

  lemma LeadsOn(s: State, a: Action, states: seq<State>, actions: seq<Action>)
    requires Leads(states, actions) && Next(s, a, states[0])
    ensures Leads([s] + states, [a] + actions)
  {
    hide Next;
    forall i | 0 <= i < |actions| + 1 ensures Next(([s] + states)[i], ([a] + actions)[i], ([s] + states)[i + 1]) {
      if i > 0 {
        assert Next(states[i - 1], actions[i - 1], states[i]);
      }
    }
  }

  /** The state after a run's own stretch. */
  ghost function Stepped(s: State, x: nat, c: Choice): State
    requires Enabled(s, StepRun(x, c))
  {
    State(s.log + Writes(s, StepRun(x, c)), RunsAfter(s, StepRun(x, c)), PushedAfter(s, StepRun(x, c)), s.clock, s.torn)
  }

  /** From every state the system can be in, a run's own stretches, whatever is answered, bring it to its end. */
  lemma {:induction false} RunsCanFinish(s: State, x: nat, settled: Settlement, intact: bool)
      returns (states: seq<State>, actions: seq<Action>)
    requires Inv(s) && x in s.runs
    ensures Leads(states, actions) && states[0] == s
    ensures forall i :: 0 <= i < |actions| ==> StepsRun(actions[i], x)
    ensures x in states[|actions|].runs && states[|actions|].runs[x].run.pc.Finished?
    decreases Fuel(s.runs[x].run)
  {
    hide DoAll, Disciplined, Tidy, Fuel, Enabled, Writes, Stretch, Lists;
    if s.runs[x].run.pc.Finished? {
      return [s], [];
    }
    var c := UnfinishedRunsCanStep(s, x, settled, intact);
    var t, a := Stepped(s, x, c), Whole(StepRun(x, c));
    NextKeepsInv(s, a, t);
    ActionBurnsFuel(s, a, t, x);
    FuelIsNatural(t.runs[x].run);
    states, actions := RunsCanFinish(t, x, settled, intact);
    LeadsOn(s, a, states, actions);
    states, actions := [s] + states, [a] + actions;
  }
}
