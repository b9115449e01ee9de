/** The durable retry counter stays within the largest budget any coordinator was configured with. */
module RetryBudget {
  import opened DurableTypes
  import opened Store
  import opened RecoveryPlan
  import opened Steps
  import opened Discipline
  import opened Progress
  import opened Boundaries
  import opened Runs
  import opened RunProofs
  import opened CoordinatorSystem
  import opened WriteKinds

  function RetriesOf(s: Store, id: RequestId): nat {
    if id in s.requests then s.requests[id].retryCount else 0
  }

  predicate NoRetries(ops: seq<Op>) { forall op :: op in ops ==> !CountsRetry(op) }

  lemma RetriesOfStep(w: World, op: Op, id: RequestId)
    requires Safe(w, op)
    requires CountsRetry(op) ==> op.request.id != id
    ensures RetriesOf(Apply(w.store, op), id) == RetriesOf(w.store, id)
  {}

  /** Writes that count retries of no one, or of someone else, leave a counter alone. */
  lemma {:induction false} OthersKeepRetries(w: World, ops: seq<Op>, id: RequestId)
    requires SafeAll(w, ops)
    requires forall op :: op in ops && CountsRetry(op) ==> op.request.id != id
    ensures RetriesOf(DoAll(w, ops).store, id) == RetriesOf(w.store, id)
    decreases |ops|
  {
    if ops != [] {
      hide Apply, Note, Safe;
      assert ops[0] in ops && forall op :: op in ops[1..] ==> op in ops;
      RetriesOfStep(w, ops[0], id);
      OthersKeepRetries(Do(w, ops[0]), ops[1..], id);
    }
  }

  lemma OnlyRunsCountRetries(s: State, e: Event)
    requires Enabled(s, e) && !e.StepRun?
    ensures NoRetries(Writes(s, e))
  {
    hide Enabled, Writes;
    forall op | op in Writes(s, e) ensures !CountsRetry(op) {
      EachWriteHasItsEvent(s, e, op);
    }
  }

  // --- Over whole behaviours ---

  ghost predicate RetriesWithin(s: State, limit: nat) {
    && (forall x :: x in s.runs ==> s.runs[x].run.cfg.maxRetries <= limit)
    && forall id :: id in Now(s).store.requests ==> Now(s).store.requests[id].retryCount <= limit
  }

  /** No coordinator of this behaviour allows more retries than `limit`. */
  ghost predicate Configured(actions: seq<Action>, limit: nat) {
    forall i :: 0 <= i < |actions| ==> ConfiguredBy(actions[i], limit)
  }

  predicate ConfiguredBy(a: Action, limit: nat) {
    a.Whole? ==>
      && (a.event.SubmitRequest? ==> a.event.cfg.maxRetries <= limit)
      && (a.event.RecoverRequest? ==> a.event.cfg.maxRetries <= limit)
  }

  /** A stretch of a run counts at most one retry, of its own request, and only below its budget. */
  lemma StretchStaysWithin(w: World, r: Run, now: nat, c: Choice, id: RequestId)
    requires Consistent(w) && RunOk(w.store, r) && ChoiceOk(w, c)
    ensures var n := RetriesOf(DoAll(w, Stretch(w.store, r, now, c).ops).store, id);
            n == RetriesOf(w.store, id) || n <= r.cfg.maxRetries
  {
    hide Apply, Note, Consistent, SafeAll, DoAll, Replay, Stretch, Count;
    var ops := Stretch(w.store, r, now, c).ops;
    StretchIsSafe(w, r, now, c);
    StretchMovesOn(w.store, r, now, c);
    if id == r.id {
      RetryCountFollows(w, ops, id);
    } else {
      OthersKeepRetries(w, ops, id);
    }
  }

  /** A torn stretch counts no more than the whole one. */
  lemma CutStaysWithin(w: World, ops: seq<Op>, n: nat, id: RequestId)
    requires Consistent(w) && SafeAll(w, ops) && n <= |ops|
    ensures RetriesOf(DoAll(w, ops[..n]).store, id) <= RetriesOf(DoAll(w, ops).store, id)
  {
    hide Apply, Note, Consistent, SafeAll, DoAll, Safe;
    assert ops == ops[..n] + ops[n..];
    SafeAllAppend(w, ops[..n], ops[n..]);
    DoAllAppend(w, ops[..n], ops[n..]);
    DisciplinePreserves(w, ops[..n]);
    RunsAdvance(DoAll(w, ops[..n]), ops[n..]);
  }

  lemma WritesStayWithin(s: State, e: Event, limit: nat, id: RequestId)
    requires Inv(s) && Enabled(s, e) && RetriesWithin(s, limit)
    ensures RetriesOf(DoAll(Now(s), Writes(s, e)).store, id) <= limit
  {
    hide Apply, Note, SafeAll, DoAll, Replay, RunOk, Tidy, Lists, ListedFor, PickedFor, Stretch, Consistent, Writes;
    EventIsSafe(s, e);
    NowIsConsistent(s);
    if e.StepRun? {
      StepWrites(s, e);
      StretchStaysWithin(Now(s), s.runs[e.slot].run, s.clock, e.choice, id);
    } else {
      OnlyRunsCountRetries(s, e);
      OthersKeepRetries(Now(s), Writes(s, e), id);
    }
  }

  lemma StepWrites(s: State, e: Event)
    requires Enabled(s, e) && e.StepRun?
    ensures Writes(s, e) == Stretch(Now(s).store, s.runs[e.slot].run, s.clock, e.choice).ops
  {
    hide DoAll, Stretch;
  }

  lemma RunsKeepConfig(s: State, e: Event, x: nat, limit: nat)
    requires Enabled(s, e) && x in RunsAfter(s, e) && RetriesWithin(s, limit) && ConfiguredBy(Whole(e), limit)
    ensures RunsAfter(s, e)[x].run.cfg.maxRetries <= limit
  {
    hide DoAll, Stretch, Count, CancelRequest, BeginRecovery, Lists, ListedFor, PickedFor;
  }

  lemma NextStaysWithin(s: State, a: Action, t: State, limit: nat)
    requires Inv(s) && Next(s, a, t) && RetriesWithin(s, limit) && ConfiguredBy(a, limit)
    ensures RetriesWithin(t, limit)
  {
    hide Apply, Note, SafeAll, DoAll, Replay, RunOk, Tidy, Writes, RunsAfter, PushedAfter, Enabled, NodeOf, Consistent;
    NowIsConsistent(s);
    match a
    case Whole(e) =>
      EventIsSafe(s, e);
      LogLeads(s, Writes(s, e));
      forall x | x in t.runs ensures t.runs[x].run.cfg.maxRetries <= limit {
        RunsKeepConfig(s, e, x, limit);
      }
      forall id | id in Now(t).store.requests ensures Now(t).store.requests[id].retryCount <= limit {
        WritesStayWithin(s, e, limit, id);
      }
    case TornAfter(e, n) =>
      EventIsSafe(s, e);
      PrefixIsSafe(Now(s), Writes(s, e), n);
      LogLeads(s, Writes(s, e)[..n]);
      forall id | id in Now(t).store.requests ensures Now(t).store.requests[id].retryCount <= limit {
        WritesStayWithin(s, e, limit, id);
        CutStaysWithin(Now(s), Writes(s, e), n, id);
      }
    case Crash(_) =>
  }

  /** The retry budget is durable: over restarts, recoveries and peers, no counter passes it. */
  lemma {:induction false} RetriesStayWithinBudget(states: seq<State>, actions: seq<Action>, i: nat, limit: nat)
    requires Behaviour(states, actions) && i < |states| && Configured(actions, limit)
    ensures RetriesWithin(states[i], limit)
  {
    hide Next, Inv, ConfiguredBy;
    if i > 0 {
      RetriesStayWithinBudget(states, actions, i - 1, limit);
      BehaviourHolds(states, actions, i - 1);
      NextStaysWithin(states[i - 1], actions[i - 1], states[i], limit);
    } else {
      StartCountsNothing(limit);
    }
  }

  lemma StartCountsNothing(limit: nat)
    ensures RetriesWithin(Start, limit)
  {}
}
