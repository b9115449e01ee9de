/**
 * What a run of the segment pipeline is: for each segment the tries it made,
 * each on the best worker free at that moment, and the scene each left.
 */
module SegmentRuns {
  import opened Options
  import opened DurableTypes
  import opened WorkerPools
  import opened HiddenStates
  import opened PipelineScenes

  /** One look at the pool, and the worker taken, if any was usable. */
  datatype Try = Try(at: Scene, worker: Option<WorkerId>)

  /** All tries of one segment, from the predecessor checkpoint read once. */
  datatype Leg = Leg(segment: nat, from: Scene, c: Option<HiddenState>, tries: seq<Try>)

  /** Null after exhausted retries, unless a contract violation is there to be reported. */
  datatype SegmentEnd = Got(result: Validated) | GaveUp | Violated

  function CallOf(id: RequestId, i: nat, c: Option<HiddenState>, y: Try): Call
    requires y.worker.Some?
  {
    Call(y.at, y.worker.value, SpanAssignment(id, i, i, c))
  }

  predicate Failed(p: Plan, id: RequestId, i: nat, c: Option<HiddenState>, y: Try) {
    y.worker.Some? ==> Verdict(p, CallOf(id, i, c, y)).None?
  }

  /** The worker answered, but not to the contract: a shapeless answer is one such. */
  predicate Violates(p: Plan, id: RequestId, i: nat, c: Option<HiddenState>, y: Try) {
    && y.worker.Some? && Verdict(p, CallOf(id, i, c, y)).None?
    && !p.env.execute(y.at.awaits, y.worker.value, SpanAssignment(id, i, i, c)).Rejected?
  }

  /** The scene the next try finds: after a wait if nobody was usable, else after the call. */
  function Onward(p: Plan, id: RequestId, i: nat, c: Option<HiddenState>, y: Try): Scene {
    if y.worker.None? then Waited(p, y.at) else Settled(p, CallOf(id, i, c, y))
  }

  function SceneAfter(p: Plan, id: RequestId, leg: Leg): Scene {
    if leg.tries == [] then leg.from else Onward(p, id, leg.segment, leg.c, leg.tries[|leg.tries| - 1])
  }

  function AllBut(leg: Leg): Leg
    requires leg.tries != []
  {
    leg.(tries := leg.tries[..|leg.tries| - 1])
  }

  /** Every try so far failed, each on the best worker of the pool the one before left. */
  ghost predicate AllFailed(p: Plan, id: RequestId, leg: Leg)
    decreases |leg.tries|
  {
    leg.segment < |p.costs| &&
    (leg.tries == [] ||
     (var y := leg.tries[|leg.tries| - 1];
      && AllFailed(p, id, AllBut(leg)) && y.at == SceneAfter(p, id, AllBut(leg))
      && Available(y.at.pool, p.costs[leg.segment], y.worker) && Failed(p, id, leg.segment, leg.c, y)))
  }

  ghost predicate AnyViolates(p: Plan, id: RequestId, leg: Leg) {
    exists k :: 0 <= k < |leg.tries| && Violates(p, id, leg.segment, leg.c, leg.tries[k])
  }

  /** The tries of one segment up to its end: the last one succeeded, or it was the last allowed. */
  ghost predicate LegRecounts(p: Plan, id: RequestId, leg: Leg, end: SegmentEnd, t: Scene) {
    && leg.segment < |p.costs| && leg.tries != [] && |leg.tries| <= p.maxRetries + 1
    && AllFailed(p, id, AllBut(leg))
    && var y := leg.tries[|leg.tries| - 1];
    && y.at == SceneAfter(p, id, AllBut(leg)) && Available(y.at.pool, p.costs[leg.segment], y.worker)
    && if Failed(p, id, leg.segment, leg.c, y) then
         && |leg.tries| == p.maxRetries + 1
         && end == (if AnyViolates(p, id, leg) then Violated else GaveUp)
         && t == if y.worker.None? then y.at else SceneAfter(p, id, leg)
       else
         && end == Got(Verdict(p, CallOf(id, leg.segment, leg.c, y)).value)
         && t == SceneAfter(p, id, leg)
  }

  /** The predecessor a segment would start from now. */
  function InputAt(id: RequestId, s: Scene, i: nat): Option<HiddenState> {
    if i > 0 && i - 1 in ShelfOf(s.shelves, id) then Some(ShelfOf(s.shelves, id)[i - 1]) else None
  }

  predicate Passed(p: Plan, id: RequestId, leg: Leg, b: HiddenState) {
    && leg.tries != [] && leg.tries[|leg.tries| - 1].worker.Some?
    && Verdict(p, CallOf(id, leg.segment, leg.c, leg.tries[|leg.tries| - 1])) == Some(Boundary(b))
  }

  /** A leg begins where the one before ended, at the next segment, with the checkpoint there now. */
  ghost predicate Begins(p: Plan, id: RequestId, start: nat, s: Scene, before: seq<Leg>, leg: Leg) {
    && leg.segment == start + |before|
    && leg.from == (if before == [] then s else SceneAfter(p, id, before[|before| - 1]).(position := leg.segment))
    && leg.c == InputAt(id, leg.from, leg.segment)
  }

  /** Every segment so far was passed on with a boundary checkpoint. */
  ghost predicate AllPassed(p: Plan, id: RequestId, start: nat, s: Scene, legs: seq<Leg>)
    decreases |legs|
  {
    legs == [] ||
    (var leg := legs[|legs| - 1];
     && AllPassed(p, id, start, s, legs[..|legs| - 1]) && Begins(p, id, start, s, legs[..|legs| - 1], leg)
     && (leg.segment > 0 ==> leg.c.Some?)
     && exists b :: Passed(p, id, leg, b) && LegRecounts(p, id, leg, Got(Boundary(b)), SceneAfter(p, id, leg)))
  }

  /** A whole run: segment after segment until the output is there, a segment fails, or a predecessor is missing. */
  ghost predicate Recounts(p: Plan, id: RequestId, start: nat, s: Scene, legs: seq<Leg>, output: Option<Output>,
                           t: Scene)
  {
    && legs != [] && AllPassed(p, id, start, s, legs[..|legs| - 1])
    && var leg := legs[|legs| - 1];
    && Begins(p, id, start, s, legs[..|legs| - 1], leg)
    && if leg.segment > 0 && leg.c.None? then leg.tries == [] && output == None && t == leg.from
       else exists end ::
         && LegRecounts(p, id, leg, end, t) && !(end.Got? && end.result.Boundary?)
         && output == if end.Got? then Some(end.result.output) else None
  }

  // --- What one segment does ---

  ghost predicate Ready(p: Plan, id: RequestId, prompt: Payload, i: nat, s: Scene, c: Option<HiddenState>) {
    && Orderly(s) && AllHonest(p.m, id, prompt, ShelfOf(s.shelves, id))
    && i < p.m.n && StartsFrom(p.m, id, prompt, i, c)
  }

  lemma {:induction false} FailuresKeepReady(p: Plan, id: RequestId, prompt: Payload, leg: Leg)
    requires Planned(p) && HonestWorld(p, id, prompt)
    requires Ready(p, id, prompt, leg.segment, leg.from, leg.c) && AllFailed(p, id, leg)
    ensures Ready(p, id, prompt, leg.segment, SceneAfter(p, id, leg), leg.c)
    ensures SceneAfter(p, id, leg).awaits == leg.from.awaits + |leg.tries|
    ensures forall k :: 0 <= k < |leg.tries| ==> leg.tries[k].at.awaits == leg.from.awaits + k
    ensures forall k :: 0 <= k < |leg.tries| ==> Faulty(p, id, leg, k)
    decreases |leg.tries|
  {
    hide AllHonest, StartsFrom, HonestWorld, Planned, Verdict;
    if leg.tries != [] {
      var y := leg.tries[|leg.tries| - 1];
      FailuresKeepReady(p, id, prompt, AllBut(leg));
      forall k | 0 <= k < |leg.tries| - 1 ensures Faulty(p, id, leg, k) {
        SameFault(p, id, leg, k);
      }
      assert forall k :: 0 <= k < |leg.tries| - 1 ==> AllBut(leg).tries[k] == leg.tries[k];
      if y.worker.None? {
        WaitedStaysHonest(p, id, prompt, y.at);
      } else {
        SettledStaysHonest(p, id, prompt, CallOf(id, leg.segment, leg.c, y));
      }
    }
  }

  /** A failed try had a fault: nobody usable in the pool it saw, or the call it sent was refused. */
  ghost predicate Faulty(p: Plan, id: RequestId, leg: Leg, k: nat)
    requires k < |leg.tries|
  {
    var y := leg.tries[k];
    match y.worker
    case None => leg.segment < |p.costs| && forall w :: w in y.at.pool ==> !Usable(y.at.pool[w], p.costs[leg.segment])
    case Some(_) => Verdict(p, CallOf(id, leg.segment, leg.c, y)).None?
  }

  lemma SameFault(p: Plan, id: RequestId, leg: Leg, k: nat)
    requires k + 1 < |leg.tries|
    ensures Faulty(p, id, AllBut(leg), k) <==> Faulty(p, id, leg, k)
  {
    hide Verdict;
    assert AllBut(leg).tries[k] == leg.tries[k];
  }

  ghost predicate AllFaulty(p: Plan, id: RequestId, leg: Leg) {
    forall k :: 0 <= k < |leg.tries| ==> Faulty(p, id, leg, k)
  }

  predicate AwaitsFollow(leg: Leg) {
    forall k :: 0 <= k < |leg.tries| ==> leg.tries[k].at.awaits == leg.from.awaits + k
  }

  /**
   * One segment: an accepted result continues the honest chain, and giving up means that every try
   * allowed had a fault of its own.
   */
  lemma LegIsRight(p: Plan, id: RequestId, prompt: Payload, leg: Leg, end: SegmentEnd, t: Scene)
    requires Planned(p) && HonestWorld(p, id, prompt)
    requires Ready(p, id, prompt, leg.segment, leg.from, leg.c) && LegRecounts(p, id, leg, end, t)
    ensures Orderly(t) && AllHonest(p.m, id, prompt, ShelfOf(t.shelves, id)) && AwaitsFollow(leg)
    ensures match end
            case Got(Final(o)) => leg.segment == p.m.n - 1 && o == Reference(p.m, prompt)
            case Got(Boundary(b)) =>
              && leg.segment < p.m.n - 1 && InputAt(id, t, leg.segment + 1) == Some(b)
              && StartsFrom(p.m, id, prompt, leg.segment + 1, Some(b))
            case _ => |leg.tries| == p.maxRetries + 1 && AllFaulty(p, id, leg)
  {
    hide AllHonest, StartsFrom, HonestWorld, Planned, Verdict, AllFailed;
    var front, y := AllBut(leg), leg.tries[|leg.tries| - 1];
    FailuresKeepReady(p, id, prompt, front);
    assert forall k :: 0 <= k < |front.tries| ==> front.tries[k] == leg.tries[k];
    if y.worker.Some? {
      SettledStaysHonest(p, id, prompt, CallOf(id, leg.segment, leg.c, y));
    }
    forall k | 0 <= k < |front.tries| ensures Faulty(p, id, leg, k) {
      SameFault(p, id, leg, k);
    }
  }

  // --- What a run does ---

  lemma {:induction false} LegsArePassed(p: Plan, id: RequestId, prompt: Payload, start: nat, s: Scene, legs: seq<Leg>,
                                         next: Leg)
    requires Planned(p) && HonestWorld(p, id, prompt) && start < p.m.n
    requires Orderly(s) && AllHonest(p.m, id, prompt, ShelfOf(s.shelves, id))
    requires AllPassed(p, id, start, s, legs) && Begins(p, id, start, s, legs, next)
    ensures next.segment < p.m.n && Orderly(next.from) && AllHonest(p.m, id, prompt, ShelfOf(next.from.shelves, id))
    ensures if next.segment > 0 && next.c.None? then legs == []
            else Ready(p, id, prompt, next.segment, next.from, next.c)
    decreases |legs|
  {
    hide HonestWorld, Planned, LegRecounts, Passed;
    if legs != [] {
      var leg := legs[|legs| - 1];
      LegsArePassed(p, id, prompt, start, s, legs[..|legs| - 1], leg);
      var b :| Passed(p, id, leg, b) && LegRecounts(p, id, leg, Got(Boundary(b)), SceneAfter(p, id, leg));
      LegIsRight(p, id, prompt, leg, Got(Boundary(b)), SceneAfter(p, id, leg));
    }
  }

  /** A run told to start in the middle finds no checkpoint to start from. */
  predicate StartsNowhere(id: RequestId, s: Scene, start: nat) {
    start > 0 && InputAt(id, s, start).None?
  }

  /** The last segment tried used up its tries, and each had a fault of its own. */
  ghost predicate FailsRightly(p: Plan, id: RequestId, legs: seq<Leg>) {
    legs != [] && |legs[|legs| - 1].tries| == p.maxRetries + 1 && AllFaulty(p, id, legs[|legs| - 1])
  }

  /**
   * What every run comes to: an answer is the composition of all segment
   * functions; a failure means that the run was told to start at a segment
   * without a predecessor, or that every try allowed for one segment failed.
   */
  lemma RunsAreRight(p: Plan, id: RequestId, prompt: Payload, start: nat, s: Scene, legs: seq<Leg>,
                     output: Option<Output>, t: Scene)
    requires Planned(p) && HonestWorld(p, id, prompt) && start < p.m.n
    requires Orderly(s) && AllHonest(p.m, id, prompt, ShelfOf(s.shelves, id))
    requires Recounts(p, id, start, s, legs, output, t)
    ensures Orderly(t)
    ensures output.Some? ==> output.value == Reference(p.m, prompt)
    ensures output.None? ==> FailsRightly(p, id, legs) || StartsNowhere(id, s, start)
  {
    hide HonestWorld, Planned, LegRecounts, AllPassed, AllHonest, Faulty;
    var leg := legs[|legs| - 1];
    LegsArePassed(p, id, prompt, start, s, legs[..|legs| - 1], leg);
    if leg.segment > 0 && leg.c.None? {
      assert legs[..|legs| - 1] == [];
    } else {
      var end :| LegRecounts(p, id, leg, end, t) && !(end.Got? && end.result.Boundary?)
                 && output == if end.Got? then Some(end.result.output) else None;
      LegIsRight(p, id, prompt, leg, end, t);
    }
  }

  // --- What is left alone ---

  lemma {:induction false} TriesTouchOwn(p: Plan, id: RequestId, leg: Leg)
    requires OthersKeepAway(p, id) && AllFailed(p, id, leg)
    ensures OnlyTouches(leg.from.shelves, SceneAfter(p, id, leg).shelves, id)
    decreases |leg.tries|
  {
    hide OthersKeepAway, Settled, Verdict;
    if leg.tries != [] {
      var y := leg.tries[|leg.tries| - 1];
      TriesTouchOwn(p, id, AllBut(leg));
      TryTouchesOwn(p, id, leg.segment, leg.c, y);
    }
  }

  lemma TryTouchesOwn(p: Plan, id: RequestId, i: nat, c: Option<HiddenState>, y: Try)
    requires OthersKeepAway(p, id)
    ensures OnlyTouches(y.at.shelves, Onward(p, id, i, c, y).shelves, id)
  {
    if y.worker.Some? {
      SettledTouchesOwn(p, CallOf(id, i, c, y));
    }
  }

  lemma LegTouchesOwn(p: Plan, id: RequestId, leg: Leg, end: SegmentEnd, t: Scene)
    requires OthersKeepAway(p, id) && LegRecounts(p, id, leg, end, t)
    ensures OnlyTouches(leg.from.shelves, t.shelves, id)
  {
    hide OthersKeepAway, Settled, Verdict, AllFailed;
    TriesTouchOwn(p, id, AllBut(leg));
    TryTouchesOwn(p, id, leg.segment, leg.c, leg.tries[|leg.tries| - 1]);
  }

  lemma {:induction false} LegsTouchOwn(p: Plan, id: RequestId, start: nat, s: Scene, legs: seq<Leg>, next: Leg)
    requires OthersKeepAway(p, id) && AllPassed(p, id, start, s, legs) && Begins(p, id, start, s, legs, next)
    ensures OnlyTouches(s.shelves, next.from.shelves, id)
    decreases |legs|
  {
    hide OthersKeepAway, LegRecounts, Passed, SceneAfter;
    if legs != [] {
      var leg := legs[|legs| - 1];
      LegsTouchOwn(p, id, start, s, legs[..|legs| - 1], leg);
      var b :| Passed(p, id, leg, b) && LegRecounts(p, id, leg, Got(Boundary(b)), SceneAfter(p, id, leg));
      LegTouchesOwn(p, id, leg, Got(Boundary(b)), SceneAfter(p, id, leg));
    }
  }

  /** While nobody else touches other requests' checkpoints, a run leaves them as they were. */
  lemma RunTouchesOwn(p: Plan, id: RequestId, start: nat, s: Scene, legs: seq<Leg>, output: Option<Output>, t: Scene)
    requires OthersKeepAway(p, id) && Recounts(p, id, start, s, legs, output, t)
    ensures OnlyTouches(s.shelves, t.shelves, id)
  {
    hide OthersKeepAway, LegRecounts, Passed, SceneAfter, AllPassed;
    var leg := legs[|legs| - 1];
    LegsTouchOwn(p, id, start, s, legs[..|legs| - 1], leg);
    if !(leg.segment > 0 && leg.c.None?) {
      var end :| LegRecounts(p, id, leg, end, t) && !(end.Got? && end.result.Boundary?)
                 && output == if end.Got? then Some(end.result.output) else None;
      LegTouchesOwn(p, id, leg, end, t);
    }
  }

  // --- Workers whose result was refused ---

  lemma OutAreNotTaken(pool: Pool, requiredVramMB: nat, best: Option<WorkerId>, w: WorkerId)
    requires Out(pool, w) && Available(pool, requiredVramMB, best)
    ensures best != Some(w)
  {}

  /** While nobody brings it back, a worker whose result was refused gets no other try of the segment. */
  lemma {:induction false} RetriesGoElsewhere(p: Plan, id: RequestId, leg: Leg, i: nat, w: WorkerId)
    requires StayOut(p) && AllFailed(p, id, leg) && i < |leg.tries| && leg.tries[i].worker == Some(w)
    ensures forall j :: i < j < |leg.tries| ==> leg.tries[j].worker != Some(w)
    ensures Out(SceneAfter(p, id, leg).pool, w)
    decreases |leg.tries|
  {
    hide Verdict, Settled, StayOut, Out;
    var front, y := AllBut(leg), leg.tries[|leg.tries| - 1];
    if i == |leg.tries| - 1 {
      RefusedAreOut(p, CallOf(id, leg.segment, leg.c, y));
    } else {
      RetriesGoElsewhere(p, id, front, i, w);
      assert forall j :: i < j < |front.tries| ==> leg.tries[j] == front.tries[j];
      OutAreNotTaken(y.at.pool, p.costs[leg.segment], y.worker, w);
      if y.worker.None? {
        WaitsKeepOut(p, y.at, w);
      } else {
        CallsKeepOut(p, CallOf(id, leg.segment, leg.c, y), w);
      }
    }
  }
}
