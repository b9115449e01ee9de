/**
 * The span pipeline: route the unfinished suffix, relay hidden states at span
 * boundaries, and on any failure route again from the newest checkpoint. Each
 * method is proved to do exactly what `SpanRuns` says a run is.
 */
module SpanPipelines {
  import opened Options
  import opened DurableTypes
  import opened WorkerPools
  import opened HiddenStates
  import opened SpanRouters
  import opened PipelineScenes
  import opened SpanRuns

  datatype RequestStatus = Pending | InProgress | Done | Failure

  class InferenceRequest {
    const id: RequestId
    const prompt: Payload
    var status: RequestStatus
    var currentSegment: nat

    constructor (id: RequestId, prompt: Payload)
      ensures this.id == id && this.prompt == prompt && status == Pending && currentSegment == 0
    {
      this.id, this.prompt, status, currentSegment := id, prompt, Pending, 0;
    }
  }

  datatype Outcome = Answered(output: Output, segmentsCompleted: nat) | Threw | Refused

  datatype AttemptEnd = NoRouteNow | TooLong | Ran(end: RouteEnd)

  /** A request that starts past the last executable segment is refused before anything happens. */
  predicate OutOfModel(n: nat, start: nat) { start > n || (n > 0 && start == n) }

  class SpanPipeline {
    const plan: Plan
    const pool: WorkerPool
    const store: CheckpointStore
    /** How many awaits have passed. */
    var awaits: nat

    constructor (plan: Plan, pool: WorkerPool, store: CheckpointStore)
      requires Planned(plan) && store.Valid() && Identified(pool.workers)
      ensures this.plan == plan && this.pool == pool && this.store == store && awaits == 0 && Valid()
    {
      this.plan, this.pool, this.store, awaits := plan, pool, store, 0;
    }

    ghost predicate Valid()
      reads this, pool, store
    {
      Planned(plan) && store.Valid() && Identified(pool.workers)
    }

    function Now(request: InferenceRequest): Scene
      reads this, pool, store, request
    {
      Scene(awaits, pool.workers, store.store, request.currentSegment)
    }

    /** While the pipeline waits, others may change the pool and the store. */
    method Await(ghost request: InferenceRequest)
      requires Valid()
      modifies this`awaits, pool, store
      ensures Valid() && Now(request) == Waited(plan, old(Now(request)))
    {
      pool.workers := plan.env.churn(awaits, pool.workers);
      store.store := plan.env.others(awaits, store.store);
      awaits := awaits + 1;
    }

    method AssertInputCheckpoint(id: RequestId, span: Span, c: Option<HiddenState>) returns (ok: bool)
      ensures ok <==> if span.first == 0 then c.None?
                      else c.Some? && c.value.requestId == id && c.value.segment + 1 == span.first
    {
      if span.first == 0 { return c.None?; }
      if c.None? || c.value.requestId != id { return false; }
      return c.value.segment + 1 == span.first;
    }

    /** One span: execute, validate, commit; a worker that fails at any of it is taken out of the pool. */
    method ExecuteSpan(request: InferenceRequest, span: Span, c: Option<HiddenState>)
      returns (result: Option<Validated>)
      requires Valid() && span.first <= span.last < plan.m.n
      modifies this`awaits, pool, store, request`currentSegment
      ensures Valid()
      ensures result == Verdict(plan, CallFor(request.id, old(Now(request)), span, c))
      ensures Now(request) == var t := Settled(plan, CallFor(request.id, old(Now(request)), span, c));
                              if result.Some? && result.value.Boundary? then t.(position := span.last + 1) else t
    {
      var isFinal := span.last == plan.m.n - 1;
      var assignment := SpanAssignment(request.id, span.first, span.last, c);
      request.currentSegment := span.first;
      pool.Mark(span.worker, Working, Some(span.first));
      var answer := plan.env.execute(awaits, span.worker, assignment);
      Await(request);
      result := ValidateSpanResult(request.id, span, answer, isFinal);
      if result.None? {
        pool.Mark(span.worker, Gone, None);
        return;
      }
      if result.value.Boundary? {
        // A checkpoint that passed is well-formed, so it is not refused here.
        var saved := store.Save(result.value.checkpoint);
        request.currentSegment := span.last + 1;
      }
      pool.Mark(span.worker, Free, None);
    }

    /** Span by span: each starts from the checkpoint the one before it committed. */
    method ExecuteRoute(request: InferenceRequest, route: Route, start: nat, initial: Option<HiddenState>,
                        ghost router: Router)
      returns (end: RouteEnd)
      requires Valid() && HonestWorld(plan, request.id, request.prompt)
      requires |router.costs| == plan.m.n && Tiles(router, route, start, {})
      requires Ready(plan, request.id, request.prompt, Standing(Now(request), start, initial))
      modifies this`awaits, pool, store, request
      ensures Valid()
      ensures end == Travel(plan, request.id, old(Now(request)), route, initial).end
      ensures Now(request) == Travel(plan, request.id, old(Now(request)), route, initial).after
      ensures request.status == if end.Finished? then Done else old(request.status)
    {
      hide Tiles, Ready, HonestWorld, Settled, Verdict, StartsFrom, Planned, AllHonest, Reference;
      assert route[0..] == route;
      ghost var used: set<WorkerId> := {};
      ghost var at: nat := start;
      ghost var input := initial;
      var i := 0;
      while i < |route|
        invariant 0 <= i <= |route| && Valid() && Tiles(router, route[i..], at, used)
        invariant i == 0 ==> input == initial
        invariant i > 0 ==> route[i - 1].last in store.Of(request.id)
                            && input == Some(store.Of(request.id)[route[i - 1].last])
        invariant i == |route| || Ready(plan, request.id, request.prompt, Standing(Now(request), at, input))
        invariant var whole := Travel(plan, request.id, old(Now(request)), route, initial);
                  var rest := Travel(plan, request.id, Now(request), route[i..], input);
                  whole.end == rest.end && whole.after == rest.after
        invariant request.status == old(request.status)
        decreases |route| - i
      {
        var span := route[i];
        TileHead(router, route, i, at, used);
        var c := initial;
        if i > 0 {
          c := store.Get(request.id, route[i - 1].last);
        }
        var ok := AssertInputCheckpoint(request.id, span, c);
        InputMatches(plan, request.id, request.prompt, Now(request), span, c);
        if !ok { assert false; }
        ghost var before := Now(request);
        TravelSteps(plan, request.id, request.prompt, before, route[i..], c);
        var result := ExecuteSpan(request, span, c);
        if result.None? { return Broke; }
        if result.value.Final? {
          request.status := Done;
          request.currentSegment := plan.m.n;
          store.DeleteAll(request.id);
          return Finished(result.value.output);
        }
        at, used, input := span.last + 1, used + {span.worker}, Some(result.value.checkpoint);
        assert route[i..][1..] == route[i + 1..];
        i := i + 1;
      }
      return Broke;
    }

    /** The newest checkpoint that does not reach the last segment, and the segment after it, or the start. */
    method Resume(request: InferenceRequest) returns (c: Option<HiddenState>, segment: nat)
      requires Valid()
      ensures c == Resumable(plan, request.id, Now(request)) && segment == StartAfter(c)
    {
      c := store.Latest(request.id, plan.m.n - 2);
      segment := if c.Some? then c.value.segment + 1 else 0;
    }

    /** Route the suffix now, and execute the route if there is one that can be timed. */
    method TryRoute(request: InferenceRequest, segment: nat, c: Option<HiddenState>)
      returns (result: AttemptEnd, ghost attempt: RouteAttempt)
      requires Valid() && HonestWorld(plan, request.id, request.prompt)
      requires Ready(plan, request.id, request.prompt, Standing(Now(request), segment, c))
      modifies this`awaits, pool, store, request
      ensures Valid()
      ensures attempt.from == Standing(old(Now(request)), segment, c) && Chosen(plan, attempt)
      ensures result.NoRouteNow? <==> attempt.route.None?
      ensures result.TooLong? <==> attempt.route.Some? && !Timed(plan, attempt)
      ensures if result.Ran? then
                && result.end == TripOf(plan, request.id, attempt).end
                && Now(request) == TripOf(plan, request.id, attempt).after
              else Now(request) == old(Now(request))
      ensures request.status == if result == Ran(Broke) || !result.Ran? then old(request.status) else Done
    {
      hide Tiles, HonestWorld, KeepsIdentities, Honest, Travel, Search, Timely;
      ReadyStarts(plan, request.id, request.prompt, Standing(Now(request), segment, c));
      var ids := pool.AllWorkers();
      var router := RouterAt(plan, Now(request));
      var answer := ComputeRoute(router, ids, segment);
      attempt := RouteAttempt(Standing(Now(request), segment, c), if answer.Routed? then Some(answer.route) else None);
      ChosenByListing(plan, attempt, ids);
      if answer.Routed? {
        RoutesAreNotEmpty(router, answer.route, segment);
      }
      if !answer.Routed? || answer.route == [] { return NoRouteNow, attempt; }
      if !Timely(plan.perSegmentMs, answer.route) { return TooLong, attempt; }
      var end := ExecuteRoute(request, answer.route, segment, c, router);
      return Ran(end), attempt;
    }

    /** Route, execute, and on failure route again from the newest boundary. */
    method ExecuteWithRoute(request: InferenceRequest) returns (end: RouteEnd, ghost attempts: seq<RouteAttempt>)
      requires Valid() && plan.m.n > 0 && HonestWorld(plan, request.id, request.prompt)
      requires AllHonest(plan.m, request.id, request.prompt, store.Of(request.id))
      modifies this`awaits, pool, store, request
      ensures Valid()
      ensures Recounts(plan, request.id, Opening(plan, request.id, old(Now(request))), attempts, end, Now(request))
      ensures request.status == if end.Finished? then Done else old(request.status)
    {
      hide Ready, HonestWorld, KeepsIdentities, Chosen, TripOf, AllHonest, Resumable, AllFailed;
      var id, prompt := request.id, request.prompt;
      OpeningIsReady(plan, id, prompt, Now(request));
      ghost var opening := Opening(plan, id, Now(request));
      var c: Option<HiddenState>, segment: nat := Resume(request);
      request.currentSegment := segment;
      attempts := [];
      NoneFailed(plan, id, opening);
      var attempt := 0;
      while attempt <= plan.maxRetries
        invariant Valid() && |attempts| == attempt <= plan.maxRetries
        invariant AllFailed(plan, id, opening, attempts)
        invariant StandingAfter(plan, id, opening, attempts) == Standing(Now(request), segment, c)
        invariant Ready(plan, id, prompt, Standing(Now(request), segment, c))
        invariant request.status == old(request.status)
        decreases plan.maxRetries + 1 - attempt
      {
        var result, one := TryRoute(request, segment, c);
        ghost var before := attempts;
        attempts := attempts + [one];
        assert attempts[..|before|] == before;
        if result.TooLong? || (result.Ran? && result.end.Finished?) || attempt >= plan.maxRetries {
          return if result.Ran? then result.end else Broke, attempts;
        }
        OneMoreFailed(plan, id, opening, before, one);
        OnwardIsReady(plan, id, prompt, one);
        if result.NoRouteNow? {
          Await(request);
        } else {
          var latest, next := Resume(request);
          if latest.Some? && (c.None? || latest.value.segment >= c.value.segment) {
            c, segment := latest, next;
            request.currentSegment := segment;
          }
        }
        attempt := attempt + 1;
      }
      assert false;
    }

    /**
     * Exactly a run as `SpanRuns` describes it. So, whatever workers fail,
     * answer nonsense or come and go: an answer is what running all segments in
     * order gives; a failure means that every attempt allowed had a fault of
     * its own; no attempt starts before an earlier one; and in the end the
     * request leaves no checkpoint.
     */
    method Run(request: InferenceRequest) returns (outcome: Outcome, ghost attempts: seq<RouteAttempt>)
      requires Valid() && HonestWorld(plan, request.id, request.prompt)
      requires AllHonest(plan.m, request.id, request.prompt, store.Of(request.id))
      modifies this`awaits, pool, store, request
      ensures Valid()
      ensures outcome.Refused? <==> OutOfModel(plan.m.n, old(request.currentSegment))
      ensures outcome.Refused? ==> Now(request) == old(Now(request)) && request.status == old(request.status)
      ensures !outcome.Refused? && plan.m.n == 0 ==>
                outcome == Answered(Reference(plan.m, request.prompt), 0) && attempts == []
                && Now(request) == old(Now(request)).(shelves := old(store.store) - {request.id})
      ensures !outcome.Refused? && plan.m.n > 0 ==>
                RunRecounts(plan, request.id, old(Now(request)), attempts, outcome, Now(request))
      ensures !outcome.Refused? ==>
                store.Of(request.id) == map[] && request.status == if outcome.Answered? then Done else Failure
      ensures outcome.Answered? ==>
                outcome.output == Reference(plan.m, request.prompt) && outcome.segmentsCompleted == plan.m.n
      ensures outcome.Threw? ==> FailsRightly(plan, request.id, attempts)
      ensures StartsNeverFallBack(attempts) && AwaitsRise(attempts)
    {
      hide Ready, HonestWorld, KeepsIdentities, Recounts, Opening, AllHonest, FailsRightly;
      attempts := [];
      if OutOfModel(plan.m.n, request.currentSegment) { return Refused, []; }
      if plan.m.n == 0 {
        request.status := Done;
        store.DeleteAll(request.id);
        return Answered(Output([], ""), 0), [];
      }
      request.status := InProgress;
      ghost var s := Now(request);
      var end: RouteEnd;
      end, attempts := ExecuteWithRoute(request);
      ghost var t := Now(request);
      RunsAreRight(plan, request.id, request.prompt, s, attempts, end, t);
      RunsMoveOn(plan, request.id, request.prompt, s, attempts, end, t);
      if end.Finished? {
        return Answered(end.output, plan.m.n), attempts;
      }
      request.status := Failure;
      store.DeleteAll(request.id);
      return Threw, attempts;
    }
  }

  /** The recounted run, and the checkpoints deleted after a failure. */
  ghost predicate RunRecounts(p: Plan, id: RequestId, s: Scene, attempts: seq<RouteAttempt>, outcome: Outcome, t: Scene)
  {
    exists end, u ::
      && Recounts(p, id, Opening(p, id, s), attempts, end, u)
      && t == (if end.Finished? then u else u.(shelves := u.shelves - {id}))
      && outcome == if end.Finished? then Answered(end.output, p.m.n) else Threw
  }

  /** While nobody else touches other requests' checkpoints, a run leaves them as they were. */
  lemma RunsTouchOwn(p: Plan, id: RequestId, s: Scene, attempts: seq<RouteAttempt>, outcome: Outcome, t: Scene)
    requires OthersKeepAway(p, id) && RunRecounts(p, id, s, attempts, outcome, t)
    ensures OnlyTouches(s.shelves, t.shelves, id)
  {
    hide Recounts, OthersKeepAway;
    var end, u :| Recounts(p, id, Opening(p, id, s), attempts, end, u)
                  && t == (if end.Finished? then u else u.(shelves := u.shelves - {id}));
    RunTouchesOwn(p, id, Opening(p, id, s), attempts, end, u);
  }

  /** While nobody else touches the request's checkpoints, every attempt of a run starts after the newest one. */
  lemma RunsStartAtNewest(p: Plan, id: RequestId, prompt: Payload, s: Scene, attempts: seq<RouteAttempt>,
                          outcome: Outcome, t: Scene)
    requires Planned(p) && HonestWorld(p, id, prompt) && Undisturbed(p, id) && p.m.n > 0
    requires Orderly(s) && AllHonest(p.m, id, prompt, ShelfOf(s.shelves, id))
    requires RunRecounts(p, id, s, attempts, outcome, t)
    ensures forall i :: 0 <= i < |attempts| ==> StartsAtNewest(p, id, attempts[i].from)
  {
    hide HonestWorld, KeepsIdentities, Chosen, TripOf, AllHonest, Onward, StartsAtNewest, MayRetry, Opening;
    var front := attempts[..|attempts| - 1];
    AttemptsStartAtNewest(p, id, prompt, s, front);
    assert forall i :: 0 <= i < |front| ==> attempts[i] == front[i];
  }

  // --- Steps of the loops ---

  lemma TileHead(router: Router, route: Route, i: nat, at: nat, used: set<WorkerId>)
    requires i < |route| && Tiles(router, route[i..], at, used)
    ensures route[i].first == at <= route[i].last < |router.costs|
    ensures Tiles(router, route[i + 1..], route[i].last + 1, used + {route[i].worker})
  {
    assert route[i..][1..] == route[i + 1..];
  }

  lemma InputMatches(p: Plan, id: RequestId, prompt: Payload, s: Scene, span: Span, c: Option<HiddenState>)
    requires Ready(p, id, prompt, Standing(s, span.first, c))
    ensures if span.first == 0 then c.None? else c.Some? && c.value.requestId == id && c.value.segment + 1 == span.first
  {}

  /** One span of a trip: refused, the output, or a boundary that the rest of the trip is ready to start from. */
  lemma TravelSteps(p: Plan, id: RequestId, prompt: Payload, s: Scene, route: Route, c: Option<HiddenState>)
    requires route != [] && Planned(p) && HonestWorld(p, id, prompt) && route[0].first <= route[0].last < p.m.n
    requires Ready(p, id, prompt, Standing(s, route[0].first, c))
    ensures var call := CallFor(id, s, route[0], c);
            var t, trip := Settled(p, call), Travel(p, id, s, route, c);
            match Verdict(p, call)
            case None => trip.end == Broke && trip.after == t
            case Some(Final(o)) => trip.end == Finished(o)
                && trip.after == t.(shelves := t.shelves - {id}, position := p.m.n)
            case Some(Boundary(b)) =>
              var next := t.(position := route[0].last + 1);
              && trip.end == Travel(p, id, next, route[1..], Some(b)).end
              && trip.after == Travel(p, id, next, route[1..], Some(b)).after
              && route[0].last in ShelfOf(next.shelves, id) && ShelfOf(next.shelves, id)[route[0].last] == b
              && Ready(p, id, prompt, Standing(next, route[0].last + 1, Some(b)))
  {
    hide Settled, Verdict, AllHonest, StartsFrom, HonestWorld, Planned;
    SettledStaysHonest(p, id, prompt, CallFor(id, s, route[0], c));
  }

  lemma ReadyStarts(p: Plan, id: RequestId, prompt: Payload, x: Standing)
    requires Ready(p, id, prompt, x)
    ensures x.start < p.m.n && Orderly(x.at)
  {}

  lemma ChosenByListing(p: Plan, a: RouteAttempt, ids: seq<WorkerId>)
    requires a.from.start <= |p.costs| && Pooled(RouterAt(p, a.from.at)) && Enumerates(a.from.at.pool, ids)
    requires a.route == Search(RouterAt(p, a.from.at), ids, a.from.start, {})
    ensures Chosen(p, a)
  {}

  lemma RoutesAreNotEmpty(router: Router, route: Route, start: nat)
    requires start < |router.costs| && Tiles(router, route, start, {})
    ensures route != []
  {}

  lemma NoneFailed(p: Plan, id: RequestId, opening: Standing)
    ensures AllFailed(p, id, opening, [])
  {}

  lemma OneMoreFailed(p: Plan, id: RequestId, opening: Standing, attempts: seq<RouteAttempt>, a: RouteAttempt)
    requires AllFailed(p, id, opening, attempts) && a.from == StandingAfter(p, id, opening, attempts)
    requires Chosen(p, a) && MayRetry(p, id, a)
    ensures AllFailed(p, id, opening, attempts + [a])
  {
    assert (attempts + [a])[..|attempts|] == attempts;
  }
}
