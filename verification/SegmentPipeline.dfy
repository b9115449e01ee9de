/**
 * The segment pipeline: one worker for each segment, retried on other workers
 * from the same predecessor checkpoint until it succeeds or the retries end.
 * Each method is proved to do exactly what `SegmentRuns` says a run is.
 */
module SegmentPipelines {
  import opened Options
  import opened DurableTypes
  import opened WorkerPools
  import opened HiddenStates
  import opened SpanRouters
  import opened PipelineScenes
  import opened SegmentRuns
  import opened SpanPipelines

  class SegmentPipeline {
    const plan: Plan
    const pool: WorkerPool
    const store: CheckpointStore
    /** How many awaits have passed. */
    var awaits: nat

    constructor (plan: Plan, pool: WorkerPool, store: CheckpointStore)
      requires Planned(plan) && store.Valid() && Identified(pool.workers)
      ensures this.plan == plan && this.pool == pool && this.store == store && awaits == 0 && Valid()
    {
      this.plan, this.pool, this.store, awaits := plan, pool, store, 0;
    }

    ghost predicate Valid()
      reads this, pool, store
    {
      Planned(plan) && store.Valid() && Identified(pool.workers)
    }

    function Now(request: InferenceRequest): Scene
      reads this, pool, store, request
    {
      Scene(awaits, pool.workers, store.store, request.currentSegment)
    }

    /** While the pipeline waits, others may change the pool and the store. */
    method Await(ghost request: InferenceRequest)
      requires Valid()
      modifies this`awaits, pool, store
      ensures Valid() && Now(request) == Waited(plan, old(Now(request)))
    {
      pool.workers := plan.env.churn(awaits, pool.workers);
      store.store := plan.env.others(awaits, store.store);
      awaits := awaits + 1;
    }

    /** One call of one worker; the checkpoint is committed before the worker is free again. */
    method CallWorker(request: InferenceRequest, i: nat, w: WorkerId, c: Option<HiddenState>)
      returns (result: Option<Validated>, rejected: bool)
      requires Valid()
      modifies this`awaits, pool, store
      ensures Valid()
      ensures result == Verdict(plan, CallOf(request.id, i, c, Try(old(Now(request)), Some(w))))
      ensures Now(request) == Settled(plan, CallOf(request.id, i, c, Try(old(Now(request)), Some(w))))
      ensures Violates(plan, request.id, i, c, Try(old(Now(request)), Some(w))) <==> result.None? && !rejected
    {
      var assignment := SpanAssignment(request.id, i, i, c);
      pool.Mark(w, Working, Some(i));
      var answer := plan.env.execute(awaits, w, assignment);
      Await(request);
      rejected := answer.Rejected?;
      result := ValidateSpanResult(request.id, Span(w, i, i), answer, i == plan.m.n - 1);
      if result.None? {
        pool.Mark(w, Gone, None);
        return;
      }
      if result.value.Boundary? {
        // A checkpoint that passed is well-formed, so it is not refused here.
        var saved := store.Save(result.value.checkpoint);
      }
      pool.Mark(w, Free, None);
    }

    /** The predecessor is read once; every retry runs from it. */
    method ExecuteSegmentWithRetry(request: InferenceRequest, i: nat) returns (end: SegmentEnd, ghost leg: Leg)
      requires Valid() && HonestWorld(plan, request.id, request.prompt) && i < plan.m.n
      requires AllHonest(plan.m, request.id, request.prompt, store.Of(request.id))
      modifies this`awaits, pool, store
      ensures Valid()
      ensures leg.segment == i && leg.from == old(Now(request)) && leg.c == InputAt(request.id, leg.from, i)
      ensures if i > 0 && leg.c.None? then leg.tries == [] && end == Violated && Now(request) == leg.from
              else LegRecounts(plan, request.id, leg, end, Now(request))
    {
      hide AllFailed, Settled, Verdict, HonestWorld, KeepsIdentities, Available;
      var c: Option<HiddenState> := None;
      if i > 0 {
        c := store.Get(request.id, i - 1);
      }
      leg := Leg(i, Now(request), c, []);
      InputIsOwn(plan, request.id, request.prompt, Now(request), i);
      if i > 0 && (c.None? || c.value.requestId != request.id || c.value.segment + 1 != i) { return Violated, leg; }
      var violated := false;
      var attempt := 0;
      NoTryFailed(plan, request.id, leg);
      while attempt <= plan.maxRetries
        invariant Valid() && |leg.tries| == attempt <= plan.maxRetries + 1
        invariant attempt > plan.maxRetries ==> LastCalled(plan, request.id, leg)
        invariant leg == Leg(i, old(Now(request)), c, leg.tries) && AllFailed(plan, request.id, leg)
        invariant Now(request) == SceneAfter(plan, request.id, leg)
        invariant violated <==> AnyViolates(plan, request.id, leg)
        decreases plan.maxRetries + 1 - attempt
      {
        var worker := pool.GetAvailableWorker(plan.costs[i]);
        ghost var y, before := Try(Now(request), worker), leg;
        leg := leg.(tries := leg.tries + [y]);
        TakenBack(before, y);
        if worker.None? {
          NoWorkerFails(plan, request.id, before, y, violated);
          if attempt >= plan.maxRetries { return if violated then Violated else GaveUp, leg; }
          Await(request);
        } else {
          var result, rejected := CallWorker(request, i, worker.value, c);
          if result.Some? { return Got(result.value), leg; }
          RefusalFails(plan, request.id, before, y, violated, violated || !rejected);
          violated := violated || !rejected;
        }
        attempt := attempt + 1;
      }
      return if violated then Violated else GaveUp, leg;
    }

    /** From the request's own segment to the last; the last one's output is the answer. */
    method ExecuteAllSegments(request: InferenceRequest)
      returns (output: Option<Output>, ghost legs: seq<Leg>, ghost t: Scene)
      requires Valid() && HonestWorld(plan, request.id, request.prompt) && request.currentSegment < plan.m.n
      requires AllHonest(plan.m, request.id, request.prompt, store.Of(request.id))
      modifies this`awaits, pool, store, request
      ensures Valid()
      ensures Recounts(plan, request.id, old(request.currentSegment), old(Now(request)), legs, output, t)
      ensures Now(request) == if output.Some? then t.(shelves := t.shelves - {request.id}) else t
      ensures request.status == if output.Some? then Done else Failure
    {
      hide HonestWorld, KeepsIdentities, LegRecounts, AllPassed, AllHonest, Passed;
      var id, prompt := request.id, request.prompt;
      ghost var start, s := request.currentSegment, Now(request);
      legs := [];
      NonePassed(plan, id, start, s);
      var i := request.currentSegment;
      while i < plan.m.n
        invariant Valid() && i == start + |legs| && i < plan.m.n
        invariant AllPassed(plan, id, start, s, legs)
        invariant Now(request).(position := i)
                  == if legs == [] then s else SegmentRuns.SceneAfter(plan, id, legs[|legs| - 1]).(position := i)
        invariant AllHonest(plan.m, id, prompt, store.Of(id))
        decreases plan.m.n - i
      {
        request.currentSegment := i;
        ghost var before := legs;
        var end, leg := ExecuteSegmentWithRetry(request, i);
        t := Now(request);
        legs := legs + [leg];
        assert legs[..|before|] == before && Begins(plan, id, start, s, before, leg);
        if !end.Got? {
          request.status := Failure;
          return None, legs, t;
        }
        LegsArePassed(plan, id, prompt, start, s, before, leg);
        if end.result.Final? {
          request.status := Done;
          store.DeleteAll(id);
          return Some(end.result.output), legs, t;
        }
        LegIsRight(plan, id, prompt, leg, end, t);
        OneMorePassed(plan, id, start, s, before, leg, end, t);
        i := i + 1;
      }
      assert false;
    }

    /**
     * Exactly a run as `SegmentRuns` describes it. So an answer is what running
     * all segments in order gives, and a failure means that every try allowed
     * for one segment had a fault of its own, or that the run was told to start
     * without a predecessor; in the end the request leaves no checkpoint.
     */
    method Run(request: InferenceRequest) returns (outcome: Outcome, ghost legs: seq<Leg>, ghost t: Scene)
      requires Valid() && HonestWorld(plan, request.id, request.prompt)
      requires AllHonest(plan.m, request.id, request.prompt, store.Of(request.id))
      modifies this`awaits, pool, store, request
      ensures Valid()
      ensures outcome.Refused? <==> OutOfModel(plan.m.n, old(request.currentSegment))
      ensures outcome.Refused? ==> Now(request) == old(Now(request)) && request.status == old(request.status)
      ensures !outcome.Refused? && plan.m.n == 0 ==>
                outcome == Answered(Reference(plan.m, request.prompt), 0) && legs == []
                && Now(request) == old(Now(request)).(shelves := old(store.store) - {request.id})
      ensures !outcome.Refused? && plan.m.n > 0 ==>
                && Recounts(plan, request.id, old(request.currentSegment), old(Now(request)), legs,
                            if outcome.Answered? then Some(outcome.output) else None, t)
                && Now(request) == t.(shelves := t.shelves - {request.id})
      ensures !outcome.Refused? ==>
                store.Of(request.id) == map[] && request.status == if outcome.Answered? then Done else Failure
      ensures outcome.Answered? ==>
                outcome.output == Reference(plan.m, request.prompt) && outcome.segmentsCompleted == plan.m.n
      ensures outcome.Threw? ==> SegmentRuns.FailsRightly(plan, request.id, legs)
                                 || StartsNowhere(request.id, old(Now(request)), old(request.currentSegment))
    {
      hide HonestWorld, KeepsIdentities, Recounts, AllHonest, FailsRightly;
      legs, t := [], Now(request);
      if OutOfModel(plan.m.n, request.currentSegment) { return Refused, [], t; }
      if plan.m.n == 0 {
        request.status := Done;
        store.DeleteAll(request.id);
        return Answered(Output([], ""), 0), [], t;
      }
      request.status := InProgress;
      ghost var start, s := request.currentSegment, Now(request);
      var output: Option<Output>;
      output, legs, t := ExecuteAllSegments(request);
      RunsAreRight(plan, request.id, request.prompt, start, s, legs, output, t);
      if output.Some? {
        return Answered(output.value, plan.m.n), legs, t;
      }
      request.status := Failure;
      store.DeleteAll(request.id);
      return Threw, legs, t;
    }
  }

  // --- Steps of the loops ---

  lemma InputIsOwn(p: Plan, id: RequestId, prompt: Payload, s: Scene, i: nat)
    requires Orderly(s) && AllHonest(p.m, id, prompt, ShelfOf(s.shelves, id)) && i < p.m.n
    ensures InputAt(id, s, i).Some? ==>
              InputAt(id, s, i).value.requestId == id && InputAt(id, s, i).value.segment + 1 == i
  {}

  lemma NoTryFailed(p: Plan, id: RequestId, leg: Leg)
    requires leg.tries == [] && leg.segment < |p.costs|
    ensures AllFailed(p, id, leg)
  {}

  /** The last try of these sent a call, which was refused. */
  ghost predicate LastCalled(p: Plan, id: RequestId, leg: Leg) {
    && leg.segment < |p.costs| && leg.tries != [] && AllFailed(p, id, AllBut(leg))
    && var y := leg.tries[|leg.tries| - 1];
    && y.at == SegmentRuns.SceneAfter(p, id, AllBut(leg)) && Available(y.at.pool, p.costs[leg.segment], y.worker)
    && y.worker.Some? && Failed(p, id, leg.segment, leg.c, y)
  }

  lemma TakenBack(leg: Leg, y: Try)
    ensures AllBut(leg.(tries := leg.tries + [y])) == leg
  {}

  lemma NoWorkerFails(p: Plan, id: RequestId, leg: Leg, y: Try, violated: bool)
    requires AllFailed(p, id, leg) && y.at == SceneAfter(p, id, leg)
    requires Available(y.at.pool, p.costs[leg.segment], y.worker) && y.worker.None?
    requires violated <==> AnyViolates(p, id, leg)
    ensures AllFailed(p, id, leg.(tries := leg.tries + [y]))
    ensures violated <==> AnyViolates(p, id, leg.(tries := leg.tries + [y]))
  {
    TakenBack(leg, y);
    OneMoreTry(p, id, leg, y);
  }

  lemma RefusalFails(p: Plan, id: RequestId, leg: Leg, y: Try, violated: bool, now: bool)
    requires AllFailed(p, id, leg) && y.at == SceneAfter(p, id, leg)
    requires Available(y.at.pool, p.costs[leg.segment], y.worker) && y.worker.Some?
    requires Verdict(p, CallOf(id, leg.segment, leg.c, y)).None?
    requires violated <==> AnyViolates(p, id, leg)
    requires now <==> violated || Violates(p, id, leg.segment, leg.c, y)
    ensures AllFailed(p, id, leg.(tries := leg.tries + [y]))
    ensures now <==> AnyViolates(p, id, leg.(tries := leg.tries + [y]))
  {
    TakenBack(leg, y);
    OneMoreTry(p, id, leg, y);
  }

  lemma OneMoreTry(p: Plan, id: RequestId, leg: Leg, y: Try)
    ensures AnyViolates(p, id, leg.(tries := leg.tries + [y])) <==>
              AnyViolates(p, id, leg) || Violates(p, id, leg.segment, leg.c, y)
  {
    var more := leg.(tries := leg.tries + [y]);
    if k :| 0 <= k < |leg.tries| && Violates(p, id, leg.segment, leg.c, leg.tries[k]) {
      assert more.tries[k] == leg.tries[k];
    }
    assert more.tries[|leg.tries|] == y;
  }

  lemma NonePassed(p: Plan, id: RequestId, start: nat, s: Scene)
    ensures AllPassed(p, id, start, s, [])
  {}

  lemma OneMorePassed(p: Plan, id: RequestId, start: nat, s: Scene, legs: seq<Leg>, leg: Leg, end: SegmentEnd, t: Scene)
    requires AllPassed(p, id, start, s, legs) && Begins(p, id, start, s, legs, leg) && (leg.segment > 0 ==> leg.c.Some?)
    requires end.Got? && end.result.Boundary? && LegRecounts(p, id, leg, end, t)
    ensures AllPassed(p, id, start, s, legs + [leg]) && t == SegmentRuns.SceneAfter(p, id, leg)
  {
    hide AllFailed, Available;
    assert (legs + [leg])[..|legs|] == legs;
    assert Passed(p, id, leg, end.result.checkpoint);
  }
}
