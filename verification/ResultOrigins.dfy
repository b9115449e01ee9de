/**
 * Where stored results come from: each is, word for word, what one worker answered
 * while it owned the live lease of the last segment.
 */
module ResultOrigins {
  import opened DurableTypes
  import opened Store
  import opened Steps
  import opened Discipline
  import opened Runs
  import opened Traces
  import opened CoordinatorSystem
  import opened CoordinatorTheorems
  import opened AttemptOutcomes
  import opened WriteKinds

  /** A worker's answer reaches a coordinator with this event: pushed, or as the executor's own return. */
  predicate Brings(s: State, e: Event, answer: WorkerResult) {
    || (e.PushResult? && e.result == answer)
    || (e.StepRun? && e.slot in s.runs && s.runs[e.slot].run.pc.Executing? && e.choice.settled == Answered(answer))
  }

  /** A result that is there after some writes and was not there before is one of their commits. */
  lemma {:induction false} CommittedBy(w: World, ops: seq<Op>, id: RequestId) returns (op: Op)
    requires id !in w.store.results && id in DoAll(w, ops).store.results
    ensures op in ops && op.Commit? && op.id == id && op.result == DoAll(w, ops).store.results[id]
    decreases |ops|
  {
    hide Apply, Note;
    var u := Do(w, ops[0]);
    if id in u.store.results {
      ResultAppears(w.store, ops[0], id);
      op := ops[0];
      ResultsAreKept(u, ops[1..], id);
    } else {
      op := CommittedBy(u, ops[1..], id);
    }
  }

  lemma ResultStays(s: Store, op: Op, id: RequestId)
    requires id in s.results
    ensures id in Apply(s, op).results && Apply(s, op).results[id] == s.results[id]
  {}

  lemma {:induction false} ResultsAreKept(w: World, ops: seq<Op>, id: RequestId)
    requires id in w.store.results
    ensures id in DoAll(w, ops).store.results && DoAll(w, ops).store.results[id] == w.store.results[id]
    decreases |ops|
  {
    hide Apply, Note;
    if ops != [] {
      ResultStays(w.store, ops[0], id);
      ResultsAreKept(Do(w, ops[0]), ops[1..], id);
    }
  }

  /** Whatever event commits a result commits the answer it brings. */
  lemma CommitsItsAnswer(s: State, e: Event, op: Op) returns (answer: WorkerResult)
    requires Enabled(s, e) && op in Writes(s, e) && op.Commit?
    ensures Brings(s, e, answer) && FinalAnswer(Now(s).store, answer, s.clock)
    ensures op.id == answer.identity.requestId && op.result == ResultOf(Now(s).store, answer)
  {
    hide DoAll, Replay, Lists, ListedFor, PickedFor, AcceptEntry, Match, Owns;
    EachWriteHasItsEvent(s, e, op);
    var t := Now(s).store;
    if e.PushResult? {
      answer := e.result;
      EntryKinds(e.cfg, t, answer, s.clock, e.listed, op);
    } else {
      var r := s.runs[e.slot].run;
      answer := e.choice.settled.result;
      AnswersAreAccepted(s, e);
      EntryKinds(r.cfg, t, answer, s.clock, e.choice.listed, op);
    }
    MismatchIsNamed(t, answer.identity, s.clock);
  }

  lemma AnswersAreAccepted(s: State, e: Event)
    requires Enabled(s, e) && e.StepRun? && s.runs[e.slot].run.pc.Executing? && e.choice.settled.Answered?
    ensures Writes(s, e)
         == AcceptEntry(s.runs[e.slot].run.cfg, Now(s).store, e.choice.settled.result, s.clock, e.choice.listed).ops
  {
    hide DoAll, Replay, Lists, ListedFor, PickedFor, AcceptEntry, Count;
  }

  /** One action brings a result only as the answer its event brings. */
  lemma NewResultsAreAnswers(s: State, a: Action, t: State, id: RequestId) returns (answer: WorkerResult)
    requires Inv(s) && Next(s, a, t) && id !in StoreOf(s).results && id in StoreOf(t).results
    ensures !a.Crash? && Brings(s, a.event, answer) && FinalAnswer(StoreOf(s), answer, s.clock)
    ensures answer.identity.requestId == id && StoreOf(t).results[id] == ResultOf(StoreOf(s), answer)
  {
    hide DoAll, Inv, Writes, RunsAfter, PushedAfter, Enabled, NodeOf, FinalAnswer, Brings;
    var ops := if a.Whole? then Writes(s, a.event) else if a.Crash? then [] else Writes(s, a.event)[..a.writes];
    assert t.log == s.log + ops;
    DoAllAppend(Origin, s.log, ops);
    var op := CommittedBy(Now(s), ops, id);
    answer := CommitsItsAnswer(s, a.event, op);
  }

  /**
   * In every behaviour each stored result is the output of one pushed result or one
   * executor's answer, whose identity owned the live lease of the last segment of the
   * running, uncancelled request at that moment.
   */
  lemma {:induction false} ResultsAreAnswers(states: seq<State>, actions: seq<Action>, i: nat, id: RequestId)
    returns (k: nat, answer: WorkerResult)
    requires Behaviour(states, actions) && i < |states| && id in StoreOf(states[i]).results
    ensures k < i && !actions[k].Crash? && Brings(states[k], actions[k].event, answer)
    ensures FinalAnswer(StoreOf(states[k]), answer, states[k].clock) && answer.identity.requestId == id
    ensures StoreOf(states[i]).results[id] == ResultOf(StoreOf(states[k]), answer)
  {
    hide Next, DoAll, FinalAnswer, Brings, Inv;
    if i > 0 {
      BehaviourHolds(states, actions, i - 1);
      if id in StoreOf(states[i - 1]).results {
        k, answer := ResultsAreAnswers(states, actions, i - 1, id);
        ExactlyOnceCompletion(states, actions, i - 1, i, id);
      } else {
        k := i - 1;
        answer := NewResultsAreAnswers(states[k], actions[k], states[i], id);
      }
    } else {
      NothingAtTheStart(id);
    }
  }

  lemma NothingAtTheStart(id: RequestId)
    ensures id !in StoreOf(Start).results
  {}
}
