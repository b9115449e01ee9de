/**
 * What a run of the span pipeline is: the routes it chose, the calls it sent,
 * and the scene each left, determined up to the router's choice among equals.
 */
module SpanRuns {
  import opened Options
  import opened DurableTypes
  import opened WorkerPools
  import opened HiddenStates
  import opened SpanRouters
  import opened PipelineScenes

  const MAX_TIMER_DELAY_MS: nat := 2147483647

  /** Every span of the route can be timed by the host. */
  predicate Timely(perSegmentMs: nat, route: Route) {
    forall s :: s in route ==> s.first <= s.last && (s.last - s.first + 1) * perSegmentMs <= MAX_TIMER_DELAY_MS
  }

  // --- One route ---

  datatype RouteEnd = Finished(output: Output) | Broke

  datatype Trip = Trip(calls: seq<Call>, after: Scene, end: RouteEnd)

  function CallFor(id: RequestId, s: Scene, span: Span, c: Option<HiddenState>): Call {
    Call(s.(position := span.first), span.worker, SpanAssignment(id, span.first, span.last, c))
  }

  /** Span by span until one is refused or the output is there; each span starts from what the one before saved. */
  function Travel(p: Plan, id: RequestId, s: Scene, route: Route, c: Option<HiddenState>): Trip
    decreases |route|
  {
    if route == [] then Trip([], s, Broke)
    else
      var call := CallFor(id, s, route[0], c);
      var t := Settled(p, call);
      match Verdict(p, call)
      case None => Trip([call], t, Broke)
      case Some(Final(o)) => Trip([call], t.(shelves := t.shelves - {id}, position := p.m.n), Finished(o))
      case Some(Boundary(b)) =>
        var rest := Travel(p, id, t.(position := route[0].last + 1), route[1..], Some(b));
        rest.(calls := [call] + rest.calls)
  }

  // --- Attempts ---

  /** Where an attempt starts: the scene, the first unfinished segment, and the checkpoint before it. */
  datatype Standing = Standing(at: Scene, start: nat, c: Option<HiddenState>)

  datatype RouteAttempt = RouteAttempt(from: Standing, route: Option<Route>)

  function RouterAt(p: Plan, s: Scene): Router {
    var now, locality := s.awaits, p.env.locality;
    Router(p.costs, s.pool, true, (w: WorkerId, k: nat, n: nat) => locality(now, w, k, n), p.env.order)
  }

  /** The route is the router's, for the pool as it was then, listed in some order. */
  ghost predicate Chosen(p: Plan, a: RouteAttempt) {
    var router := RouterAt(p, a.from.at);
    a.from.start <= |p.costs| && Pooled(router) &&
    exists ids :: Enumerates(router.pool, ids) && a.route == Search(router, ids, a.from.start, {})
  }

  predicate Timed(p: Plan, a: RouteAttempt) { a.route.Some? && Timely(p.perSegmentMs, a.route.value) }

  function TripOf(p: Plan, id: RequestId, a: RouteAttempt): Trip
    requires a.route.Some?
  {
    Travel(p, id, a.from.at, a.route.value, a.from.c)
  }

  /** An attempt that failed in a way the next one may follow: no route, or a route that broke. */
  predicate MayRetry(p: Plan, id: RequestId, a: RouteAttempt) {
    a.route.None? || (Timed(p, a) && TripOf(p, id, a).end == Broke)
  }

  function Resumable(p: Plan, id: RequestId, s: Scene): Option<HiddenState> {
    Newest(ShelfOf(s.shelves, id), p.m.n - 2)
  }

  function StartAfter(c: Option<HiddenState>): nat { if c.Some? then c.value.segment + 1 else 0 }

  /** Where a run starts. */
  function Opening(p: Plan, id: RequestId, s: Scene): Standing {
    var c := Resumable(p, id, s);
    Standing(s.(position := StartAfter(c)), StartAfter(c), c)
  }

  /**
   * Where the next attempt starts: as before after a wait, and after a broken route at the newest
   * checkpoint, unless it is older.
   */
  function Onward(p: Plan, id: RequestId, a: RouteAttempt): Standing {
    if a.route.None? then a.from.(at := Waited(p, a.from.at))
    else
      var s := TripOf(p, id, a).after;
      var latest := Resumable(p, id, s);
      if latest.Some? && (a.from.c.None? || latest.value.segment >= a.from.c.value.segment)
      then Standing(s.(position := StartAfter(latest)), StartAfter(latest), latest)
      else a.from.(at := s)
  }

  /** Where the attempt after these starts. */
  function StandingAfter(p: Plan, id: RequestId, opening: Standing, attempts: seq<RouteAttempt>): Standing {
    if attempts == [] then opening else Onward(p, id, attempts[|attempts| - 1])
  }

  /** Every attempt so far failed and followed the one before it. */
  ghost predicate AllFailed(p: Plan, id: RequestId, opening: Standing, attempts: seq<RouteAttempt>)
    decreases |attempts|
  {
    attempts == [] ||
    (var a := attempts[|attempts| - 1];
     && AllFailed(p, id, opening, attempts[..|attempts| - 1])
     && a.from == StandingAfter(p, id, opening, attempts[..|attempts| - 1])
     && Chosen(p, a) && MayRetry(p, id, a))
  }

  /**
   * A whole run: every attempt but the last failed and was retried, the last
   * one ended it, and `t` is the scene it left. It broke only on a route that
   * could not be timed, or on the last attempt allowed.
   */
  ghost predicate Recounts(p: Plan, id: RequestId, opening: Standing, attempts: seq<RouteAttempt>, end: RouteEnd,
                           t: Scene)
  {
    && attempts != [] && |attempts| <= p.maxRetries + 1
    && AllFailed(p, id, opening, attempts[..|attempts| - 1])
    && var a := attempts[|attempts| - 1];
    && a.from == StandingAfter(p, id, opening, attempts[..|attempts| - 1])
    && Chosen(p, a)
    && (MayRetry(p, id, a) ==> |attempts| == p.maxRetries + 1)
    && if Timed(p, a) then end == TripOf(p, id, a).end && t == TripOf(p, id, a).after
       else end == Broke && t == a.from.at
  }

  // --- What a trip does ---

  ghost predicate Ready(p: Plan, id: RequestId, prompt: Payload, x: Standing) {
    && Orderly(x.at) && AllHonest(p.m, id, prompt, ShelfOf(x.at.shelves, id))
    && x.start < p.m.n && StartsFrom(p.m, id, prompt, x.start, x.c)
  }

  /**
   * From an honest input a trip along a tiling ends in the reference output, or with a refused
   * call and honest checkpoints.
   */
  lemma {:induction false} TripIsHonest(p: Plan, id: RequestId, prompt: Payload, s: Scene, route: Route,
                                        c: Option<HiddenState>, router: Router, at: nat, used: set<WorkerId>)
    requires Planned(p) && HonestWorld(p, id, prompt) && |router.costs| == p.m.n && Tiles(router, route, at, used)
    requires Ready(p, id, prompt, Standing(s, at, c))
    ensures var trip := Travel(p, id, s, route, c);
            && Orderly(trip.after) && trip.calls != []
            && match trip.end
               case Finished(o) => o == Reference(p.m, prompt) && ShelfOf(trip.after.shelves, id) == map[]
               case Broke =>
                 && AllHonest(p.m, id, prompt, ShelfOf(trip.after.shelves, id))
                 && Verdict(p, trip.calls[|trip.calls| - 1]).None?
    decreases |route|
  {
    hide Settled, Verdict, AllHonest, StartsFrom, HonestWorld, Planned;
    var call := CallFor(id, s, route[0], c);
    SettledStaysHonest(p, id, prompt, call);
    if Verdict(p, call).Some? && Verdict(p, call).value.Boundary? {
      var b := Verdict(p, call).value.checkpoint;
      TripIsHonest(p, id, prompt, Settled(p, call).(position := route[0].last + 1), route[1..], Some(b), router,
                   route[0].last + 1, used + {route[0].worker});
    }
  }

  /** Await numbers count the calls: each call waits once, in order. */
  lemma {:induction false} TripCountsAwaits(p: Plan, id: RequestId, s: Scene, route: Route, c: Option<HiddenState>)
    ensures var trip := Travel(p, id, s, route, c);
            && trip.after.awaits == s.awaits + |trip.calls|
            && (forall k :: 0 <= k < |trip.calls| ==> trip.calls[k].at.awaits == s.awaits + k)
            && (route != [] ==> trip.calls != [])
    decreases |route|
  {
    if route != [] {
      var call := CallFor(id, s, route[0], c);
      if Verdict(p, call).Some? && Verdict(p, call).value.Boundary? {
        TripCountsAwaits(p, id, Settled(p, call).(position := route[0].last + 1), route[1..],
                         Some(Verdict(p, call).value.checkpoint));
      }
    }
  }

  lemma {:induction false} TripTouchesOwn(p: Plan, id: RequestId, s: Scene, route: Route, c: Option<HiddenState>)
    requires OthersKeepAway(p, id)
    ensures OnlyTouches(s.shelves, Travel(p, id, s, route, c).after.shelves, id)
    decreases |route|
  {
    hide OthersKeepAway, Settled, Verdict;
    if route != [] {
      var call := CallFor(id, s, route[0], c);
      SettledTouchesOwn(p, call);
      if Verdict(p, call).Some? && Verdict(p, call).value.Boundary? {
        TripTouchesOwn(p, id, Settled(p, call).(position := route[0].last + 1), route[1..],
                       Some(Verdict(p, call).value.checkpoint));
      }
    }
  }

  // --- What a run does ---

  lemma OpeningIsReady(p: Plan, id: RequestId, prompt: Payload, s: Scene)
    requires Orderly(s) && AllHonest(p.m, id, prompt, ShelfOf(s.shelves, id)) && p.m.n > 0
    ensures Ready(p, id, prompt, Opening(p, id, s))
  {}

  lemma ChosenTiles(p: Plan, a: RouteAttempt)
    requires Chosen(p, a)
    ensures a.route.Some? <==> Routable(RouterAt(p, a.from.at), a.from.start, {})
    ensures a.route.Some? ==> Tiles(RouterAt(p, a.from.at), a.route.value, a.from.start, {})
  {
    var router := RouterAt(p, a.from.at);
    var ids :| Enumerates(router.pool, ids) && a.route == Search(router, ids, a.from.start, {});
    RouteIffRoutable(router, ids, a.from.start, {});
  }

  /** The trip of an attempt that stands on an honest input. */
  lemma AttemptIsHonest(p: Plan, id: RequestId, prompt: Payload, a: RouteAttempt)
    requires Planned(p) && HonestWorld(p, id, prompt) && Ready(p, id, prompt, a.from) && Chosen(p, a) && Timed(p, a)
    ensures var trip := TripOf(p, id, a);
            && Orderly(trip.after) && trip.calls != []
            && match trip.end
               case Finished(o) => o == Reference(p.m, prompt) && ShelfOf(trip.after.shelves, id) == map[]
               case Broke =>
                 && AllHonest(p.m, id, prompt, ShelfOf(trip.after.shelves, id))
                 && Verdict(p, trip.calls[|trip.calls| - 1]).None?
  {
    hide Travel, Ready, HonestWorld, KeepsIdentities, Tiles, Chosen;
    ChosenTiles(p, a);
    TripIsHonest(p, id, prompt, a.from.at, a.route.value, a.from.c, RouterAt(p, a.from.at), a.from.start, {});
  }

  lemma OnwardIsReady(p: Plan, id: RequestId, prompt: Payload, a: RouteAttempt)
    requires Planned(p) && HonestWorld(p, id, prompt)
    requires Ready(p, id, prompt, a.from) && Chosen(p, a) && MayRetry(p, id, a)
    ensures Ready(p, id, prompt, Onward(p, id, a)) && a.from.start <= Onward(p, id, a).start
  {
    hide Travel, Chosen, HonestWorld, Honest, KeepsIdentities;
    if a.route.None? {
      WaitedStaysHonest(p, id, prompt, a.from.at);
    } else {
      AttemptIsHonest(p, id, prompt, a);
    }
  }

  /** Where every attempt of a run stands. */
  ghost predicate AllReady(p: Plan, id: RequestId, prompt: Payload, attempts: seq<RouteAttempt>) {
    forall i :: 0 <= i < |attempts| ==> Ready(p, id, prompt, attempts[i].from)
  }

  predicate StartsNeverFallBack(attempts: seq<RouteAttempt>) {
    forall i, j :: 0 <= i <= j < |attempts| ==> attempts[i].from.start <= attempts[j].from.start
  }

  lemma {:induction false} FailuresKeepReady(p: Plan, id: RequestId, prompt: Payload, opening: Standing,
                                             attempts: seq<RouteAttempt>)
    requires Planned(p) && HonestWorld(p, id, prompt) && Ready(p, id, prompt, opening)
    requires AllFailed(p, id, opening, attempts)
    ensures AllReady(p, id, prompt, attempts) && StartsNeverFallBack(attempts)
    ensures Ready(p, id, prompt, StandingAfter(p, id, opening, attempts))
    ensures forall i :: 0 <= i < |attempts| ==> attempts[i].from.start <= StandingAfter(p, id, opening, attempts).start
    decreases |attempts|
  {
    hide Ready, Planned, HonestWorld, Chosen, Onward, MayRetry;
    if attempts != [] {
      var front := attempts[..|attempts| - 1];
      FailuresKeepReady(p, id, prompt, opening, front);
      OnwardIsReady(p, id, prompt, attempts[|attempts| - 1]);
    }
  }

  /** Some span of the route takes longer than a host timer can wait. */
  predicate Untimely(perSegmentMs: nat, route: Route) {
    exists s :: s in route && s.first <= s.last && (s.last - s.first + 1) * perSegmentMs > 2147483647
  }

  lemma {:induction false} TilesSpan(r: Router, route: Route, start: nat, used: set<WorkerId>)
    requires Tiles(r, route, start, used)
    ensures forall s :: s in route ==> s.first <= s.last && s.worker !in used
                                       && s.worker in r.pool && r.pool[s.worker].status.Free?
    decreases |route|
  {
    if route != [] {
      TilesSpan(r, route[1..], route[0].last + 1, used + {route[0].worker});
      assert forall s :: s in route ==> s == route[0] || s in route[1..];
    }
  }

  /** A route the router chose can be timed, or has a span that cannot. */
  lemma TimedOrNot(p: Plan, a: RouteAttempt)
    requires Chosen(p, a) && a.route.Some?
    ensures Timed(p, a) <==> !Untimely(p.perSegmentMs, a.route.value)
  {
    ChosenTiles(p, a);
    TilesSpan(RouterAt(p, a.from.at), a.route.value, a.from.start, {});
  }

  /**
   * The fault behind a failed attempt: no tiling of the suffix existed, a timeout was too long, or
   * a call it sent was refused.
   */
  ghost predicate Faulty(p: Plan, id: RequestId, a: RouteAttempt) {
    if a.route.None? then !Routable(RouterAt(p, a.from.at), a.from.start, {})
    else if Untimely(p.perSegmentMs, a.route.value) then true
    else
      var calls := TripOf(p, id, a).calls;
      calls != [] && Verdict(p, calls[|calls| - 1]).None?
  }

  lemma FailureIsFaulty(p: Plan, id: RequestId, prompt: Payload, a: RouteAttempt)
    requires Planned(p) && HonestWorld(p, id, prompt) && Ready(p, id, prompt, a.from) && Chosen(p, a)
    requires Timed(p, a) ==> TripOf(p, id, a).end == Broke
    ensures Faulty(p, id, a)
  {
    hide Travel, Ready, HonestWorld, KeepsIdentities, Chosen, Routable, Timely, Untimely;
    ChosenTiles(p, a);
    if a.route.Some? {
      TimedOrNot(p, a);
    }
    if Timed(p, a) {
      AttemptIsHonest(p, id, prompt, a);
    }
  }

  /** One attempt waits at least once before the next: its await numbers lie before those of the next. */
  predicate AwaitsRise(attempts: seq<RouteAttempt>) {
    forall i, j :: 0 <= i < j < |attempts| ==> attempts[i].from.at.awaits < attempts[j].from.at.awaits
  }

  lemma OnwardWaits(p: Plan, id: RequestId, prompt: Payload, a: RouteAttempt)
    requires Planned(p) && HonestWorld(p, id, prompt)
    requires Ready(p, id, prompt, a.from) && Chosen(p, a) && MayRetry(p, id, a)
    ensures a.from.at.awaits < Onward(p, id, a).at.awaits
  {
    hide Travel, Ready, HonestWorld, KeepsIdentities, Chosen;
    if a.route.Some? {
      AttemptIsHonest(p, id, prompt, a);
      TripCountsAwaits(p, id, a.from.at, a.route.value, a.from.c);
    }
  }

  lemma {:induction false} FailuresWait(p: Plan, id: RequestId, prompt: Payload, opening: Standing,
                                        attempts: seq<RouteAttempt>)
    requires Planned(p) && HonestWorld(p, id, prompt) && Ready(p, id, prompt, opening)
    requires AllFailed(p, id, opening, attempts)
    ensures AwaitsRise(attempts)
    ensures forall i :: 0 <= i < |attempts| ==>
              attempts[i].from.at.awaits < StandingAfter(p, id, opening, attempts).at.awaits
    decreases |attempts|
  {
    hide Ready, Planned, HonestWorld, Chosen, Onward, MayRetry;
    if attempts != [] {
      var front := attempts[..|attempts| - 1];
      FailuresWait(p, id, prompt, opening, front);
      FailuresKeepReady(p, id, prompt, opening, attempts);
      OnwardWaits(p, id, prompt, attempts[|attempts| - 1]);
    }
  }

  /** Every failed attempt of a run had a fault of its own. */
  ghost predicate FailsRightly(p: Plan, id: RequestId, attempts: seq<RouteAttempt>) {
    && attempts != [] && (forall i :: 0 <= i < |attempts| ==> Faulty(p, id, attempts[i]))
    && (|attempts| == p.maxRetries + 1
        || var a := attempts[|attempts| - 1]; a.route.Some? && Untimely(p.perSegmentMs, a.route.value))
  }

  lemma {:induction false} FailuresAreFaulty(p: Plan, id: RequestId, prompt: Payload, opening: Standing,
                                             attempts: seq<RouteAttempt>)
    requires Planned(p) && HonestWorld(p, id, prompt) && Ready(p, id, prompt, opening)
    requires AllFailed(p, id, opening, attempts)
    ensures forall i :: 0 <= i < |attempts| ==> Faulty(p, id, attempts[i])
    decreases |attempts|
  {
    hide Ready, Planned, HonestWorld, Chosen, Onward, Faulty, TripOf;
    if attempts != [] {
      FailuresAreFaulty(p, id, prompt, opening, attempts[..|attempts| - 1]);
      FailuresKeepReady(p, id, prompt, opening, attempts);
      FailureIsFaulty(p, id, prompt, attempts[|attempts| - 1]);
    }
  }

  /** What holds of all attempts but the last, and of where the last one stands, holds of them all. */
  lemma WithLast(p: Plan, id: RequestId, prompt: Payload, attempts: seq<RouteAttempt>)
    requires attempts != []
    requires var front := attempts[..|attempts| - 1];
             AllReady(p, id, prompt, front) && StartsNeverFallBack(front) && AwaitsRise(front)
    requires var front, a := attempts[..|attempts| - 1], attempts[|attempts| - 1];
             && Ready(p, id, prompt, a.from)
             && forall i :: 0 <= i < |front| ==>
                  front[i].from.start <= a.from.start && front[i].from.at.awaits < a.from.at.awaits
    ensures AllReady(p, id, prompt, attempts) && StartsNeverFallBack(attempts) && AwaitsRise(attempts)
  {
    hide Ready;
    var front := attempts[..|attempts| - 1];
    assert forall i :: 0 <= i < |front| ==> attempts[i] == front[i];
  }

  /** No attempt of a run starts before an earlier one did, and each waits before the next. */
  lemma RunsMoveOn(p: Plan, id: RequestId, prompt: Payload, s: Scene, attempts: seq<RouteAttempt>, end: RouteEnd,
                   t: Scene)
    requires Planned(p) && HonestWorld(p, id, prompt) && p.m.n > 0
    requires Orderly(s) && AllHonest(p.m, id, prompt, ShelfOf(s.shelves, id))
    requires Recounts(p, id, Opening(p, id, s), attempts, end, t)
    ensures StartsNeverFallBack(attempts) && AwaitsRise(attempts) && AllReady(p, id, prompt, attempts)
  {
    hide Ready, Planned, HonestWorld, Chosen, Onward, TripOf, Opening, AllReady, StartsNeverFallBack, AwaitsRise;
    var opening, front := Opening(p, id, s), attempts[..|attempts| - 1];
    OpeningIsReady(p, id, prompt, s);
    FailuresKeepReady(p, id, prompt, opening, front);
    FailuresWait(p, id, prompt, opening, front);
    WithLast(p, id, prompt, attempts);
  }

  /**
   * What every run comes to, whatever workers fail, answer nonsense or come and
   * go: an answer is the composition of all segment functions, and a failure
   * means that every attempt allowed had a fault of its own.
   */
  lemma RunsAreRight(p: Plan, id: RequestId, prompt: Payload, s: Scene, attempts: seq<RouteAttempt>, end: RouteEnd,
                     t: Scene)
    requires Planned(p) && HonestWorld(p, id, prompt) && p.m.n > 0
    requires Orderly(s) && AllHonest(p.m, id, prompt, ShelfOf(s.shelves, id))
    requires Recounts(p, id, Opening(p, id, s), attempts, end, t)
    ensures Orderly(t)
    ensures end.Finished? ==> end.output == Reference(p.m, prompt) && ShelfOf(t.shelves, id) == map[]
    ensures end.Broke? ==> FailsRightly(p, id, attempts)
  {
    hide Ready, Planned, HonestWorld, Chosen, Onward, Faulty, TripOf, Opening, StartsNeverFallBack, AwaitsRise, Timely,
      Untimely;
    var front, a := attempts[..|attempts| - 1], attempts[|attempts| - 1];
    RunsMoveOn(p, id, prompt, s, attempts, end, t);
    OpeningIsReady(p, id, prompt, s);
    ReadyIsOrderly(p, id, prompt, a.from);
    if Timed(p, a) {
      AttemptIsHonest(p, id, prompt, a);
    }
    if a.route.Some? {
      TimedOrNot(p, a);
    }
    if end.Broke? {
      FailuresAreFaulty(p, id, prompt, Opening(p, id, s), front);
      FailureIsFaulty(p, id, prompt, a);
      assert forall i :: 0 <= i < |front| ==> attempts[i] == front[i];
    }
  }

  lemma ReadyIsOrderly(p: Plan, id: RequestId, prompt: Payload, x: Standing)
    requires Ready(p, id, prompt, x)
    ensures Orderly(x.at)
  {}

  // --- Resuming at the newest checkpoint ---

  /** The checkpoint of the highest segment on the shelf before the last one, or none if there is none. */
  predicate NewestBefore(shelf: map<nat, HiddenState>, n: nat, c: Option<HiddenState>) {
    match c
    case None => forall k :: k in shelf ==> n <= k + 1
    case Some(x) =>
      && x.segment in shelf && shelf[x.segment] == x && x.segment + 1 < n
      && forall k :: k in shelf && k + 1 < n ==> k <= x.segment
  }

  /** The attempt starts right after the newest resumable checkpoint there is at that moment. */
  predicate StartsAtNewest(p: Plan, id: RequestId, x: Standing) {
    && NewestBefore(ShelfOf(x.at.shelves, id), p.m.n, x.c)
    && x.start == (if x.c.Some? then x.c.value.segment + 1 else 0)
  }

  /** Boundaries a trip saves come at or after where it starts, and nothing saved is lost. */
  lemma {:induction false} TripOnlySaves(p: Plan, id: RequestId, s: Scene, route: Route, c: Option<HiddenState>)
    requires Undisturbed(p, id) && Keyed(s.shelves) && Planned(p)
    ensures Travel(p, id, s, route, c).end == Broke ==>
              ShelfOf(s.shelves, id).Keys <= ShelfOf(Travel(p, id, s, route, c).after.shelves, id).Keys
    decreases |route|
  {
    hide Verdict, Planned, KeepsIdentities;
    if route != [] {
      var call := CallFor(id, s, route[0], c);
      SettledOnlySaves(p, id, call);
      if Verdict(p, call).Some? && Verdict(p, call).value.Boundary? {
        TripOnlySaves(p, id, Settled(p, call).(position := route[0].last + 1), route[1..],
                      Some(Verdict(p, call).value.checkpoint));
      }
    }
  }

  lemma SettledOnlySaves(p: Plan, id: RequestId, call: Call)
    requires Undisturbed(p, id) && Keyed(call.at.shelves) && Planned(p) && call.assignment.requestId == id
    ensures Keyed(Settled(p, call).shelves)
    ensures ShelfOf(call.at.shelves, id).Keys <= ShelfOf(Settled(p, call).shelves, id).Keys
  {}

  lemma {:induction false} NewestOfMore(a: map<nat, HiddenState>, b: map<nat, HiddenState>, bound: int)
    requires a.Keys <= b.Keys && Newest(a, bound).Some?
    requires forall k :: k in a ==> a[k].segment == k
    requires forall k :: k in b ==> b[k].segment == k
    ensures Newest(b, bound).Some? && Newest(a, bound).value.segment <= Newest(b, bound).value.segment
  {}

  lemma OnwardStartsAtNewest(p: Plan, id: RequestId, prompt: Payload, a: RouteAttempt)
    requires Planned(p) && HonestWorld(p, id, prompt) && Undisturbed(p, id)
    requires Ready(p, id, prompt, a.from) && Chosen(p, a) && MayRetry(p, id, a) && StartsAtNewest(p, id, a.from)
    ensures StartsAtNewest(p, id, Onward(p, id, a))
  {
    hide Travel, HonestWorld, KeepsIdentities, Chosen, Newest;
    if a.route.Some? {
      AttemptIsHonest(p, id, prompt, a);
      TripOnlySaves(p, id, a.from.at, a.route.value, a.from.c);
      var before, after := ShelfOf(a.from.at.shelves, id), ShelfOf(TripOf(p, id, a).after.shelves, id);
      if Newest(before, p.m.n - 2).Some? {
        NewestOfMore(before, after, p.m.n - 2);
      }
    }
  }

  /**
   * While nobody else touches the request's checkpoints, every attempt starts
   * right after the newest resumable one of that moment, so no finished segment
   * is run again.
   */
  lemma {:induction false} AttemptsStartAtNewest(p: Plan, id: RequestId, prompt: Payload, s: Scene,
                                                 attempts: seq<RouteAttempt>)
    requires Planned(p) && HonestWorld(p, id, prompt) && Undisturbed(p, id) && p.m.n > 0
    requires Orderly(s) && AllHonest(p.m, id, prompt, ShelfOf(s.shelves, id))
    requires AllFailed(p, id, Opening(p, id, s), attempts)
    ensures forall i :: 0 <= i < |attempts| ==> StartsAtNewest(p, id, attempts[i].from)
    ensures StartsAtNewest(p, id, StandingAfter(p, id, Opening(p, id, s), attempts))
    decreases |attempts|
  {
    hide Ready, Planned, HonestWorld, Chosen, Onward, MayRetry, AllHonest;
    OpeningIsReady(p, id, prompt, s);
    if attempts != [] {
      AttemptsStartAtNewest(p, id, prompt, s, attempts[..|attempts| - 1]);
      FailuresKeepReady(p, id, prompt, Opening(p, id, s), attempts);
      OnwardStartsAtNewest(p, id, prompt, attempts[|attempts| - 1]);
    }
  }

  lemma {:induction false} FailuresTouchOwn(p: Plan, id: RequestId, opening: Standing, attempts: seq<RouteAttempt>)
    requires OthersKeepAway(p, id) && AllFailed(p, id, opening, attempts)
    ensures OnlyTouches(opening.at.shelves, StandingAfter(p, id, opening, attempts).at.shelves, id)
    decreases |attempts|
  {
    hide Travel, Chosen;
    if attempts != [] {
      var a := attempts[|attempts| - 1];
      FailuresTouchOwn(p, id, opening, attempts[..|attempts| - 1]);
      if a.route.Some? {
        TripTouchesOwn(p, id, a.from.at, a.route.value, a.from.c);
      }
    }
  }

  /** A run leaves every other request's checkpoints alone. */
  lemma RunTouchesOwn(p: Plan, id: RequestId, opening: Standing, attempts: seq<RouteAttempt>, end: RouteEnd, t: Scene)
    requires OthersKeepAway(p, id) && Recounts(p, id, opening, attempts, end, t)
    ensures OnlyTouches(opening.at.shelves, t.shelves, id)
  {
    hide Travel, Chosen;
    FailuresTouchOwn(p, id, opening, attempts[..|attempts| - 1]);
    var a := attempts[|attempts| - 1];
    if Timed(p, a) {
      TripTouchesOwn(p, id, a.from.at, a.route.value, a.from.c);
    }
  }

  // --- The calls of a trip ---

  /**
   * The call for a span of the route: to the span's worker, for its segments, from what
   * the trip started from or else the boundary the call before answered with.
   */
  predicate CallsFor(p: Plan, id: RequestId, calls: seq<Call>, route: Route, i: nat, c: Option<HiddenState>)
    requires i < |calls| <= |route|
  {
    var a := calls[i].assignment;
    && calls[i].worker == route[i].worker && a.requestId == id && a.first == route[i].first && a.last == route[i].last
    && calls[i].at.position == route[i].first
    && (i == 0 ==> a.checkpoint == c)
    && (i > 0 ==> a.checkpoint.Some? && Verdict(p, calls[i - 1]) == Some(Boundary(a.checkpoint.value)))
  }

  /** A trip sends one call for each span of its route, in order, until it ends. */
  lemma {:induction false} TripsFollowTheirRoute(p: Plan, id: RequestId, s: Scene, route: Route,
                                                 c: Option<HiddenState>)
    ensures var calls := Travel(p, id, s, route, c).calls;
            |calls| <= |route| && forall i :: 0 <= i < |calls| ==> CallsFor(p, id, calls, route, i, c)
    decreases |route|
  {
    hide Verdict, Settled, CallsFor;
    if route != [] {
      var call := CallFor(id, s, route[0], c);
      var calls := Travel(p, id, s, route, c).calls;
      if Verdict(p, call).Some? && Verdict(p, call).value.Boundary? {
        var b := Verdict(p, call).value.checkpoint;
        var next := Settled(p, call).(position := route[0].last + 1);
        TripsFollowTheirRoute(p, id, next, route[1..], Some(b));
        var rest := Travel(p, id, next, route[1..], Some(b)).calls;
        assert calls == [call] + rest;
        forall i | 0 < i < |calls| ensures CallsFor(p, id, calls, route, i, c) {
          CallsForLater(p, id, call, rest, route, i, b, c);
        }
      }
      CallsForFirst(p, id, s, calls, route, c);
    }
  }

  lemma CallsForFirst(p: Plan, id: RequestId, s: Scene, calls: seq<Call>, route: Route, c: Option<HiddenState>)
    requires 0 < |calls| <= |route| && calls[0] == CallFor(id, s, route[0], c)
    ensures CallsFor(p, id, calls, route, 0, c)
  {}

  lemma CallsForLater(p: Plan, id: RequestId, call: Call, rest: seq<Call>, route: Route, i: nat, b: HiddenState,
                      c: Option<HiddenState>)
    requires 0 < i <= |rest| < |route| && Verdict(p, call) == Some(Boundary(b))
    requires CallsFor(p, id, rest, route[1..], i - 1, Some(b))
    ensures CallsFor(p, id, [call] + rest, route, i, c)
  {
    hide Verdict;
  }

  /** It ends at the call that brought the output or was refused, and reports the segment it got to. */
  lemma {:induction false} TripsEndAtACall(p: Plan, id: RequestId, s: Scene, route: Route, c: Option<HiddenState>)
    ensures var trip := Travel(p, id, s, route, c);
            var n := |trip.calls|;
            match trip.end
            case Finished(o) =>
              n > 0 && Verdict(p, trip.calls[n - 1]) == Some(Final(o)) && trip.after.position == p.m.n
            case Broke =>
              0 < n < |route| ==>
                  Verdict(p, trip.calls[n - 1]).None? && trip.after.position == trip.calls[n - 1].assignment.first
    ensures Travel(p, id, s, route, c).calls == [] ==> route == []
    decreases |route|
  {
    hide Verdict, Settled;
    if route != [] {
      var call := CallFor(id, s, route[0], c);
      SettlingKeepsPosition(p, call);
      if Verdict(p, call).Some? && Verdict(p, call).value.Boundary? {
        var b := Verdict(p, call).value.checkpoint;
        var next := Settled(p, call).(position := route[0].last + 1);
        TripsEndAtACall(p, id, next, route[1..], Some(b));
        var rest := Travel(p, id, next, route[1..], Some(b)).calls;
        assert Travel(p, id, s, route, c).calls == [call] + rest;
      }
    }
  }

  lemma SettlingKeepsPosition(p: Plan, c: Call)
    ensures Settled(p, c).position == c.at.position
  {}

  // --- Workers whose result was refused ---

  lemma {:induction false} TripsKeepOut(p: Plan, id: RequestId, s: Scene, route: Route, c: Option<HiddenState>,
                                        w: WorkerId)
    requires StayOut(p) && Out(s.pool, w) && forall x :: x in route ==> x.worker != w
    ensures Out(Travel(p, id, s, route, c).after.pool, w)
    decreases |route|
  {
    hide Verdict, StayOut, Settled, Out;
    if route != [] {
      var call := CallFor(id, s, route[0], c);
      CallsKeepOut(p, call, w);
      if Verdict(p, call).Some? && Verdict(p, call).value.Boundary? {
        TripsKeepOut(p, id, Settled(p, call).(position := route[0].last + 1), route[1..],
                     Some(Verdict(p, call).value.checkpoint), w);
      }
    }
  }

  lemma {:induction false} BrokenTripsLeaveOut(p: Plan, id: RequestId, s: Scene, route: Route, c: Option<HiddenState>)
    requires var trip := Travel(p, id, s, route, c);
             trip.end.Broke? && trip.calls != [] && Verdict(p, trip.calls[|trip.calls| - 1]).None?
    ensures var trip := Travel(p, id, s, route, c); Out(trip.after.pool, trip.calls[|trip.calls| - 1].worker)
    decreases |route|
  {
    hide Verdict, Settled, Out;
    var call := CallFor(id, s, route[0], c);
    if Verdict(p, call).None? {
      RefusedAreOut(p, call);
    } else {
      var b := Verdict(p, call).value.checkpoint;
      var next := Settled(p, call).(position := route[0].last + 1);
      var rest := Travel(p, id, next, route[1..], Some(b));
      assert Travel(p, id, s, route, c).calls == [call] + rest.calls;
      assert rest.calls != [];
      BrokenTripsLeaveOut(p, id, next, route[1..], Some(b));
    }
  }

  /** The worker is on none of the spans of an attempt's route. */
  predicate Avoids(a: RouteAttempt, w: WorkerId) {
    a.route.Some? ==> forall x :: x in a.route.value ==> x.worker != w
  }

  /** A route goes over free workers, so not over one that is out. */
  lemma RoutesAvoidOut(p: Plan, a: RouteAttempt, w: WorkerId)
    requires Chosen(p, a) && Out(a.from.at.pool, w)
    ensures Avoids(a, w)
  {
    hide Chosen, Tiles;
    if a.route.Some? {
      ChosenTiles(p, a);
      TilesSpan(RouterAt(p, a.from.at), a.route.value, a.from.start, {});
    }
  }

  lemma OnwardKeepsOut(p: Plan, id: RequestId, a: RouteAttempt, w: WorkerId)
    requires StayOut(p) && Chosen(p, a) && Out(a.from.at.pool, w)
    ensures Out(Onward(p, id, a).at.pool, w)
  {
    hide Chosen, Travel, Out, StayOut;
    if a.route.None? {
      WaitsKeepOut(p, a.from.at, w);
    } else {
      RoutesAvoidOut(p, a, w);
      TripsKeepOut(p, id, a.from.at, a.route.value, a.from.c, w);
    }
  }

  /** The worker whose result ended the attempt's trip. */
  predicate RefusedIn(p: Plan, id: RequestId, a: RouteAttempt, w: WorkerId) {
    && Timed(p, a) && TripOf(p, id, a).end.Broke?
    && var calls := TripOf(p, id, a).calls;
       calls != [] && Verdict(p, calls[|calls| - 1]).None? && calls[|calls| - 1].worker == w
  }

  /**
   * While nobody brings it back, a worker whose result was refused is on no route of a
   * later attempt, and out of the pool's choice after them all.
   */
  lemma {:induction false} RefusedWorkersStayOut(p: Plan, id: RequestId, opening: Standing, attempts: seq<RouteAttempt>,
                                                 i: nat, w: WorkerId)
    requires StayOut(p) && AllFailed(p, id, opening, attempts)
    requires i < |attempts| && RefusedIn(p, id, attempts[i], w)
    ensures forall j :: i < j < |attempts| ==> Avoids(attempts[j], w)
    ensures Out(StandingAfter(p, id, opening, attempts).at.pool, w)
    decreases |attempts|
  {
    hide Chosen, Travel, Out, StayOut, Avoids, Verdict, Timely;
    var a, front := attempts[|attempts| - 1], attempts[..|attempts| - 1];
    if i == |attempts| - 1 {
      BrokenTripsLeaveOut(p, id, a.from.at, a.route.value, a.from.c);
    } else {
      RefusedWorkersStayOut(p, id, opening, front, i, w);
      RoutesAvoidOut(p, a, w);
      OnwardKeepsOut(p, id, a, w);
      assert forall j :: i < j < |front| ==> attempts[j] == front[j];
    }
  }
}
