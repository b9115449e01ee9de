/**
 * Submissions under one idempotency key: the first binds the key for ever, every
 * later one answers the first one's identifier and changes nothing, and a key
 * names a stored request unless a crash tore the submission that bound it.
 */
module Idempotency {
  import opened Options
  import opened RequestStages
  import opened DurableTypes
  import opened Store
  import opened Steps
  import opened Discipline
  import opened Progress
  import opened Effects
  import opened Traces
  import opened CoordinatorSystem
  import opened CoordinatorTheorems
  import opened StoreChanges
  import opened StepOutcomes
  import opened WriteKinds

  /** The key is bound to this identifier. */
  predicate Bound(s: Store, key: IdempotencyKey, id: RequestId) {
    key in s.books.keys && s.books.keys[key] == id
  }

  lemma OneWriteKeepsKeys(s: Store, op: Op, key: IdempotencyKey)
    ensures key in s.books.keys ==> Bound(Apply(s, op), key, s.books.keys[key])
    ensures key !in s.books.keys && key in Apply(s, op).books.keys ==>
              op == Bookkeeping(BindKey(key, Apply(s, op).books.keys[key]))
  {}

  /** A bound key is never rebound, whatever is written. */
  lemma {:induction false} KeysStay(w: World, ops: seq<Op>, key: IdempotencyKey, id: RequestId)
    requires Bound(w.store, key, id)
    ensures Bound(DoAll(w, ops).store, key, id)
    decreases |ops|
  {
    hide Apply, Note;
    if ops != [] {
      OneWriteKeepsKeys(w.store, ops[0], key);
      KeysStay(Do(w, ops[0]), ops[1..], key, id);
    }
  }

  /** Without a binding among them, writes leave an unbound key unbound. */
  lemma {:induction false} UnboundStays(w: World, ops: seq<Op>, key: IdempotencyKey)
    requires key !in w.store.books.keys
    requires forall op :: op in ops ==> !(op.Bookkeeping? && op.book.BindKey?)
    ensures key !in DoAll(w, ops).store.books.keys
    decreases |ops|
  {
    hide Apply, Note;
    if ops != [] {
      assert ops[0] in ops && forall op :: op in ops[1..] ==> op in ops;
      OneWriteKeepsKeys(w.store, ops[0], key);
      UnboundStays(Do(w, ops[0]), ops[1..], key);
    }
  }

  /** In every behaviour a bound key keeps its identifier, over crashes of every kind. */
  lemma BoundForEver(states: seq<State>, actions: seq<Action>, i: nat, j: nat, key: IdempotencyKey, id: RequestId)
    requires Behaviour(states, actions) && i <= j < |states| && Bound(StoreOf(states[i]), key, id)
    ensures Bound(StoreOf(states[j]), key, id)
  {
    hide Next, DoAll;
    LogsGrow(states, actions, i, j);
    var log, m := states[j].log, |states[i].log|;
    assert log == states[i].log + log[m..];
    DoAllAppend(Origin, states[i].log, log[m..]);
    KeysStay(Now(states[i]), log[m..], key, id);
  }

  predicate SubmitsUnder(a: Action, key: IdempotencyKey) {
    a.Whole? && a.event.SubmitRequest? && a.event.key == Some(key)
  }

  function Answer(s: State, e: Event): SubmitOutcome
    requires e.SubmitRequest?
  {
    Submit(e.cfg, Now(s).store, e.key, e.newId, s.clock, e.deadlineMs).out
  }

  /** After a submission under a key, the key is bound to the identifier that was answered. */
  lemma AnswersAreBound(s: State, a: Action, t: State, key: IdempotencyKey)
    requires Inv(s) && Next(s, a, t) && SubmitsUnder(a, key)
    ensures Bound(StoreOf(t), key, Answer(s, a.event).id)
  {
    hide DoAll, Replay, Submit, Inv, RunsAfter, PushedAfter;
    var e := a.event;
    SubmissionLeaves(e.cfg, Now(s).store, e.key, e.newId, s.clock, e.deadlineMs);
    DoAllAppend(Origin, s.log, Writes(s, e));
    DoAllReplays(Now(s), Writes(s, e));
  }

  /**
   * Of two submissions under one key the later answers the earlier one's identifier as
   * existing, and leaves the whole system as it was: no write, no request, no run.
   */
  lemma LaterSubmissionsChangeNothing(states: seq<State>, actions: seq<Action>, i: nat, j: nat, key: IdempotencyKey)
    requires Behaviour(states, actions) && i < j < |actions|
    requires SubmitsUnder(actions[i], key) && SubmitsUnder(actions[j], key)
    ensures Answer(states[j], actions[j].event) == Existing(Answer(states[i], actions[i].event).id)
    ensures states[j + 1] == states[j]
  {
    hide DoAll, Inv, Submit, Next, Replay;
    BehaviourHolds(states, actions, i);
    AnswersAreBound(states[i], actions[i], states[i + 1], key);
    BoundForEver(states, actions, i + 1, j, key, Answer(states[i], actions[i].event).id);
    assert Next(states[j], actions[j], states[j + 1]);
    BoundChangesNothing(states[j], actions[j], states[j + 1], key);
  }

  lemma BoundChangesNothing(s: State, a: Action, t: State, key: IdempotencyKey)
    requires Next(s, a, t) && SubmitsUnder(a, key) && key in StoreOf(s).books.keys
    ensures Answer(s, a.event) == Existing(StoreOf(s).books.keys[key]) && t == s
  {
    hide DoAll, Submit, Replay;
    var e := a.event;
    SubmissionLeaves(e.cfg, Now(s).store, e.key, e.newId, s.clock, e.deadlineMs);
    assert s.log + [] == s.log;
  }

  // --- Keys and the requests they name ---

  /** The key is bound to an identifier no request is stored under. */
  predicate Dangles(s: Store, key: IdempotencyKey) {
    key in s.books.keys && s.books.keys[key] !in s.requests
  }

  /** A crash tore a submission between the binding of its key and the creation of its request. */
  predicate TearsSubmission(s: State, a: Action, key: IdempotencyKey) {
    && a.TornAfter? && a.event.SubmitRequest? && a.event.key == Some(key) && a.writes == 1
    && key !in StoreOf(s).books.keys
  }

  /** One action leaves a key dangling exactly when it tears the submission that binds it right after the binding. */
  lemma DanglesExactlyWhenTorn(s: State, a: Action, t: State, key: IdempotencyKey)
    requires Inv(s) && Next(s, a, t) && !Dangles(StoreOf(s), key)
    ensures Dangles(StoreOf(t), key) <==> TearsSubmission(s, a, key)
  {
    hide DoAll, Inv, Writes, RunsAfter, PushedAfter, Enabled, NodeOf, SafeAll;
    if !a.Crash? {
      var ops := if a.Whole? then Writes(s, a.event) else Writes(s, a.event)[..a.writes];
      assert t.log == s.log + ops;
      DoAllAppend(Origin, s.log, ops);
      EventIsSafe(s, a.event);
      PrefixIsSafe(Now(s), Writes(s, a.event), |ops|);
      assert Writes(s, a.event)[..|ops|] == ops;
      if key in StoreOf(s).books.keys {
        KeysStay(Now(s), ops, key, StoreOf(s).books.keys[key]);
        RequestsStay(s, ops);
      } else if a.event.SubmitRequest? {
        CutSubmission(s, a.event, |ops|, key);
      } else {
        forall op | op in ops ensures !(op.Bookkeeping? && op.book.BindKey?) {
          EachWriteHasItsEvent(s, a.event, op);
        }
        UnboundStays(Now(s), ops, key);
      }
    }
  }

  lemma RequestsStay(s: State, ops: seq<Op>)
    requires Inv(s) && SafeAll(Now(s), ops)
    ensures forall id :: id in StoreOf(s).requests ==> id in DoAll(Now(s), ops).store.requests
  {
    hide DoAll, SafeAll, Consistent;
    NowIsConsistent(s);
    RunsAdvance(Now(s), ops);
  }

  /** How far a submission got: nothing, the binding alone, or the binding and the request. */
  lemma CutSubmission(s: State, e: Event, n: nat, key: IdempotencyKey)
    requires Enabled(s, e) && e.SubmitRequest? && n <= |Writes(s, e)| && key !in StoreOf(s).books.keys
    ensures Dangles(DoAll(Now(s), Writes(s, e)[..n]).store, key) <==> e.key == Some(key) && n == 1
    ensures e.key == Some(key) ==> |Writes(s, e)| == 3
  {
    hide DoAll, Replay, Apply;
    var store, ops := Now(s).store, Writes(s, e);
    DoAllReplays(Now(s), ops[..n]);
    NothingWritten(store);
    if e.key.Some? && e.key.value in store.books.keys {
      assert ops == [];
    } else {
      var bind := if e.key.Some? then [Bookkeeping(BindKey(e.key.value, e.newId))] else [];
      var create := Requests(CreateRequest(NewRequest(e.cfg, e.newId, s.clock, e.deadlineMs)));
      var queue := Requests(Transition(e.newId, Accepted, Queued));
      assert ops == bind + [create, queue];
      CutWrites(store, e.key, e.newId, create, queue, n, key);
    }
  }

  lemma CutWrites(s: Store, given: Option<IdempotencyKey>, newId: RequestId, create: Op, queue: Op, n: nat,
                  key: IdempotencyKey)
    requires given.Some? ==> given.value !in s.books.keys
    requires key !in s.books.keys && newId !in s.requests
    requires create.Requests? && create.request.CreateRequest? && create.request.record.id == newId
    requires queue.Requests? && queue.request.Transition?
    requires n <= (if given.Some? then 3 else 2)
    ensures var bind := if given.Some? then [Bookkeeping(BindKey(given.value, newId))] else [];
            Dangles(Replay(s, (bind + [create, queue])[..n]), key) <==> given == Some(key) && n == 1
  {
    hide Replay, Apply;
    var bind := if given.Some? then [Bookkeeping(BindKey(given.value, newId))] else [];
    var cut := (bind + [create, queue])[..n];
    NothingWritten(s);
    if n == 0 {
      assert cut == [];
    } else if given.None? {
      assert cut == if n == 1 then [create] else [create, queue];
      ReplaySingle(s, create);
      ReplayTwo(s, create, queue);
      CreatingNames(s, newId, create, queue);
    } else {
      var s1 := Apply(s, bind[0]);
      assert cut == if n == 1 then bind else [bind[0]] + (if n == 2 then [create] else [create, queue]);
      ReplaySingle(s, bind[0]);
      ReplayLead(s, bind[0], [create]);
      ReplayLead(s, bind[0], [create, queue]);
      ReplaySingle(s1, create);
      ReplayTwo(s1, create, queue);
      CreatingNames(s1, newId, create, queue);
      BindingNames(s, given.value, newId, key);
    }
  }

  lemma BindingNames(s: Store, given: IdempotencyKey, newId: RequestId, key: IdempotencyKey)
    requires given !in s.books.keys && key !in s.books.keys && newId !in s.requests
    ensures var t := Apply(s, Bookkeeping(BindKey(given, newId)));
            t.requests == s.requests && (key in t.books.keys <==> given == key) && Bound(t, given, newId)
  {}

  /** The new request and its first stage leave every key as it was. */
  lemma CreatingNames(s: Store, newId: RequestId, create: Op, queue: Op)
    requires create.Requests? && create.request.CreateRequest? && create.request.record.id == newId
    requires queue.Requests? && queue.request.Transition?
    ensures var t, u := Apply(s, create), Apply(Apply(s, create), queue);
            newId in t.requests && newId in u.requests && t.books == s.books && u.books == s.books
  {}

  /** While no crash tears a stretch, every bound key names a stored request. */
  lemma {:induction false} KeysNameRequests(states: seq<State>, actions: seq<Action>, i: nat, key: IdempotencyKey)
    requires Behaviour(states, actions) && i < |states| && Untorn(actions[..i])
    ensures !Dangles(StoreOf(states[i]), key)
  {
    hide Next, Inv, DoAll;
    if i > 0 {
      assert Untorn(actions[..i - 1]) by {
        assert forall k :: 0 <= k < i - 1 ==> actions[..i - 1][k] == actions[..i][k];
      }
      KeysNameRequests(states, actions, i - 1, key);
      BehaviourHolds(states, actions, i - 1);
      assert !actions[..i][i - 1].TornAfter?;
      DanglesExactlyWhenTorn(states[i - 1], actions[i - 1], states[i], key);
    } else {
      NoKeysAtTheStart(key);
    }
  }

  lemma NoKeysAtTheStart(key: IdempotencyKey)
    ensures key !in StoreOf(Start).books.keys
  {}

  /**
   * A torn submission does leave a dangling key: after the crash the same submission is
   * answered as existing, under an identifier that names no request.
   */
  lemma TornSubmissionsAreLost(cfg: Config, key: IdempotencyKey, first: RequestId, second: RequestId)
    returns (states: seq<State>, actions: seq<Action>)
    ensures Behaviour(states, actions) && |actions| == 2
    ensures actions[0] == TornAfter(Event.SubmitRequest(0, 0, cfg, Some(key), first, None), 1)
    ensures actions[1] == Whole(Event.SubmitRequest(0, 0, cfg, Some(key), second, None))
    ensures Answer(states[1], actions[1].event) == Existing(first) && states[2] == states[1]
    ensures first !in StoreOf(states[2]).requests
  {
    hide Replay;
    var ask, again := Event.SubmitRequest(0, 0, cfg, Some(key), first, None),
                      Event.SubmitRequest(0, 0, cfg, Some(key), second, None);
    var bind := Bookkeeping(BindKey(key, first));
    var t := State([bind], map[], map[], 0, true);
    NoKeysAtTheStart(key);
    assert Writes(Start, ask)[..1] == [bind];
    assert Next(Start, TornAfter(ask, 1), t);
    ReplaySingle(Empty, bind);
    DoAllReplays(Origin, [bind]);
    assert Bound(StoreOf(t), key, first) && StoreOf(t).requests == map[];
    states, actions := [Start, t, t], [TornAfter(ask, 1), Whole(again)];
    assert Writes(t, again) == [];
    assert Next(t, Whole(again), t);
  }
}
