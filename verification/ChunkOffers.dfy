/**
 * How long a chunk each worker is offered: what fits its memory, throttled by its
 * load and its stability; and which workers may take the next chunk at all.
 */
module ChunkOffers {
  import opened Options
  import opened DurableTypes
  import opened Windows

  datatype Telemetry = Telemetry(
    uptimeMs: nat, vramFreeMB: nat, gpuBusy: real, cpuBusy: real, failureRate: real, jitterMs: nat,
    tokensPerSecond: real, checkpointBytesPerSecond: real)

  datatype AdaptiveWorker = AdaptiveWorker(id: WorkerId, tier: nat, telemetry: Telemetry, lastOrder: nat)

  /** `vramLimitMB` is absent when no limit is configured. */
  datatype Settings = Settings(
    costs: seq<nat>, loadBudget: real, longLivedMs: nat, vramLimitMB: Option<nat>, checkpointBytes: nat)

  // --- The longest window of the whole model ---

  /** The length of the longest window, wherever it starts, that fits the budget. */
  ghost predicate LongestWindow(costs: seq<nat>, budget: nat, n: nat) {
    && (exists lo: nat :: Fits(costs, budget, lo, n))
    && forall lo: nat, m: nat :: Fits(costs, budget, lo, m) ==> m <= n
  }

  function Larger(a: nat, b: nat): nat { if a < b then b else a }

  function Smaller(a: nat, b: nat): nat { if b < a then b else a }

  /** The longest span over every start from `lo` on. */
  function BestFrom(costs: seq<nat>, budget: nat, lo: nat): nat
    requires lo <= |costs|
    decreases |costs| - lo
  {
    if lo == |costs| then 0 else Larger(MaxSpan(costs, budget, lo), BestFrom(costs, budget, lo + 1))
  }

  lemma {:induction false} BestFromIsBest(costs: seq<nat>, budget: nat, lo: nat) returns (at: nat)
    requires lo <= |costs|
    ensures lo <= at <= |costs| && Fits(costs, budget, at, BestFrom(costs, budget, lo))
    ensures forall k: nat, m: nat :: lo <= k && Fits(costs, budget, k, m) ==> m <= BestFrom(costs, budget, lo)
    decreases |costs| - lo
  {
    if lo == |costs| {
      at := lo;
    } else {
      at := BestFromIsBest(costs, budget, lo + 1);
      if BestFrom(costs, budget, lo + 1) < MaxSpan(costs, budget, lo) {
        at := lo;
      }
    }
  }

  function LongestSpan(costs: seq<nat>, budget: nat): (n: nat)
    ensures LongestWindow(costs, budget, n)
  {
    BestOfAll(costs, budget);
    BestFrom(costs, budget, 0)
  }

  lemma BestOfAll(costs: seq<nat>, budget: nat)
    ensures LongestWindow(costs, budget, BestFrom(costs, budget, 0))
  {
    var at := BestFromIsBest(costs, budget, 0);
  }

  predicate TooCostly(costs: seq<nat>, budget: nat, lo: nat, end: nat) {
    lo <= end <= |costs| && Sum(costs, lo, end) > budget
  }

  /** Every window up to `end` that starts before `start` is too costly. */
  predicate TooCostlyBefore(costs: seq<nat>, budget: nat, start: nat, end: nat) {
    forall s: nat :: s < start ==> TooCostly(costs, budget, s, end)
  }

  /** The left end is the first from which the window up to `end` fits, if any does. */
  predicate LeftmostFit(costs: seq<nat>, budget: nat, start: nat, end: nat)
    requires start <= end <= |costs|
  {
    Sum(costs, start, end) <= budget && TooCostlyBefore(costs, budget, start, end)
  }

  /** No window that ends by `end` is longer. */
  ghost predicate BestUpTo(costs: seq<nat>, budget: nat, end: nat, n: nat)
    requires end <= |costs|
  {
    && (exists lo: nat :: Fits(costs, budget, lo, n) && lo + n <= end)
    && forall lo: nat, m: nat :: Fits(costs, budget, lo, m) && lo + m <= end ==> m <= n
  }

  lemma BestGrows(costs: seq<nat>, budget: nat, start: nat, end: nat, n: nat)
    requires start <= end + 1 <= |costs| && LeftmostFit(costs, budget, start, end + 1)
             && BestUpTo(costs, budget, end, n)
    ensures BestUpTo(costs, budget, end + 1, Larger(n, end + 1 - start))
  {
    assert Fits(costs, budget, start, end + 1 - start);
    var before: nat :| Fits(costs, budget, before, n) && before + n <= end;
    forall lo: nat, m: nat | Fits(costs, budget, lo, m) && lo + m <= end + 1 ensures m <= Larger(n, end + 1 - start) {
      if lo + m == end + 1 {
        assert !TooCostly(costs, budget, lo, end + 1);
      }
    }
  }

  /** Moving the left end on drops one segment from the sum. */
  lemma DropFirst(costs: seq<nat>, start: nat, end: nat)
    requires start < end <= |costs|
    ensures Sum(costs, start + 1, end) == Sum(costs, start, end) - costs[start]
  {
    SumSplits(costs, start, start + 1, end);
  }

  /** A window too costly before it grew is too costly after. */
  lemma StillTooCostly(costs: seq<nat>, budget: nat, start: nat, end: nat)
    requires start <= end < |costs| && LeftmostFit(costs, budget, start, end)
    ensures TooCostlyBefore(costs, budget, start, end + 1)
  {
    var next := end + 1;
    forall s: nat | s < start ensures TooCostly(costs, budget, s, next) {
      assert TooCostly(costs, budget, s, end);
    }
  }

  /** Two pointers: the window grows on the right and gives way on the left. */
  method ComputeModelMaximumSpanLength(costs: seq<nat>, budget: nat) returns (maximum: nat)
    ensures maximum == LongestSpan(costs, budget)
  {
    var start, consumed := 0, 0;
    maximum := 0;
    assert Fits(costs, budget, 0, 0);
    for end := 0 to |costs|
      invariant start <= end && consumed == Sum(costs, start, end)
      invariant LeftmostFit(costs, budget, start, end)
      invariant BestUpTo(costs, budget, end, maximum)
    {
      StillTooCostly(costs, budget, start, end);
      consumed := consumed + costs[end];
      while consumed > budget && start <= end
        invariant start <= end + 1 && consumed == Sum(costs, start, end + 1)
        invariant TooCostlyBefore(costs, budget, start, end + 1)
        decreases end + 1 - start
      {
        DropFirst(costs, start, end + 1);
        consumed := consumed - costs[start];
        start := start + 1;
      }
      BestGrows(costs, budget, start, end, maximum);
      maximum := Larger(maximum, end - start + 1);
    }
    BestIsLongest(costs, budget, maximum);
  }

  lemma BestIsLongest(costs: seq<nat>, budget: nat, n: nat)
    requires BestUpTo(costs, budget, |costs|, n)
    ensures n == LongestSpan(costs, budget)
  {
    var m := LongestSpan(costs, budget);
    var lo: nat :| Fits(costs, budget, lo, n) && lo + n <= |costs|;
    var k: nat :| Fits(costs, budget, k, m);
  }

  // --- The length a worker is offered ---

  predicate OverBudget(c: Settings, t: Telemetry) { t.gpuBusy > c.loadBudget || t.cpuBusy > c.loadBudget }

  function LoadScale(c: Settings, t: Telemetry): (scale: real)
    ensures scale in {0.0, 0.5, 1.0}
  {
    var near := c.loadBudget * 0.75;
    if OverBudget(c, t) then 0.0 else if t.gpuBusy >= near || t.cpuBusy >= near then 0.5 else 1.0
  }

  function StabilityScale(c: Settings, w: AdaptiveWorker): (scale: real)
    ensures scale in {0.0, 0.5, 1.0}
  {
    if w.telemetry.failureRate >= 0.5 then 0.0
    else if w.telemetry.failureRate > 0.1 || w.telemetry.jitterMs > 750 then 0.5
    else if w.tier == 3 || w.telemetry.uptimeMs < c.longLivedMs then 0.5
    else 1.0
  }

  function Available(c: Settings, w: AdaptiveWorker): nat {
    match c.vramLimitMB
    case None => w.telemetry.vramFreeMB
    case Some(limit) => Smaller(w.telemetry.vramFreeMB, limit)
  }

  function Clamp(low: int, high: int, value: int): int {
    var capped := if value < high then value else high;
    if low < capped then capped else low
  }

  function TargetChunkLength(c: Settings, w: AdaptiveWorker, start: nat): nat
    requires start <= |c.costs|
  {
    var budget := Available(c, w);
    var current := MaxSpan(c.costs, budget, start);
    var load, stability := LoadScale(c, w.telemetry), StabilityScale(c, w);
    if current < 1 || load == 0.0 || stability == 0.0 then 0
    else
      var model := LongestSpan(c.costs, budget);
      var scaled := (model as real * load * stability).Floor;
      var tierLimit := if w.tier == 3 then 1 else model;
      var target := Clamp(1, Smaller(current, tierLimit), scaled);
      if target >= 0 then target else 0
  }

  /** A worker is offered nothing exactly when it cannot take one segment, is over budget, or fails too often. */
  lemma OfferedNothing(c: Settings, w: AdaptiveWorker, start: nat)
    requires start <= |c.costs|
    ensures TargetChunkLength(c, w, start) == 0 <==>
              || start == |c.costs| || c.costs[start] > Available(c, w)
              || OverBudget(c, w.telemetry) || w.telemetry.failureRate >= 0.5
  {
    if start < |c.costs| {
      assert Sum(c.costs, start, start + 1) == c.costs[start];
      assert Fits(c.costs, Available(c, w), start, 1) <==> c.costs[start] <= Available(c, w);
    }
  }

  /** The capacity the throttling leaves of the longest window the worker could hold anywhere. */
  function Throttled(c: Settings, w: AdaptiveWorker): real {
    LongestSpan(c.costs, Available(c, w)) as real * LoadScale(c, w.telemetry) * StabilityScale(c, w)
  }

  /**
   * A length that fits the worker here, is at most one segment on the burst tier, and stays within
   * the throttled capacity.
   */
  predicate Offerable(c: Settings, w: AdaptiveWorker, start: nat, n: nat) {
    Fits(c.costs, Available(c, w), start, n) && (w.tier == 3 ==> n <= 1) && n as real <= Throttled(c, w)
  }

  /** What is offered is the longest such length, or a single segment that fits when throttling would leave none. */
  lemma OfferFits(c: Settings, w: AdaptiveWorker, start: nat)
    requires start <= |c.costs| && TargetChunkLength(c, w, start) > 0
    ensures var n := TargetChunkLength(c, w, start);
            && Fits(c.costs, Available(c, w), start, n)
            && (w.tier == 3 ==> n == 1)
            && (n == 1 || Offerable(c, w, start, n))
            && forall m: nat :: Offerable(c, w, start, m) ==> m <= n
  {
    var budget := Available(c, w);
    var current := MaxSpan(c.costs, budget, start);
    FitsShrinks(c.costs, budget, start, current, start, TargetChunkLength(c, w, start));
  }

  // --- The offer, told by the telemetry alone ---

  /** At least one segment, and otherwise no more than the worker holds here. */
  function AtLeastOne(here: nat, scaled: nat): nat {
    if scaled < 1 then 1 else if scaled < here then scaled else here
  }

  /** The memory the worker may use: what is free, within the limit if there is one. */
  function Usable(c: Settings, w: AdaptiveWorker): nat {
    if c.vramLimitMB.Some? && c.vramLimitMB.value < w.telemetry.vramFreeMB then c.vramLimitMB.value
    else w.telemetry.vramFreeMB
  }

  /** The worker may be offered something at all. */
  predicate Willing(c: Settings, t: Telemetry) {
    t.gpuBusy <= c.loadBudget && t.cpuBusy <= c.loadBudget && t.failureRate < 0.5
  }

  /** A load within a quarter of the budget. */
  predicate NearBudget(c: Settings, t: Telemetry) {
    t.gpuBusy >= c.loadBudget * 0.75 || t.cpuBusy >= c.loadBudget * 0.75
  }

  /** More than a tenth of failures, a heartbeat off by more than 750 ms, or not up for long. */
  predicate Unsteady(c: Settings, t: Telemetry) {
    t.failureRate > 0.1 || t.jitterMs > 750 || t.uptimeMs < c.longLivedMs
  }

  lemma Halves(n: nat)
    ensures (n as real * 1.0 * 1.0).Floor == n && (n as real * 0.5 * 0.5).Floor == n / 4
    ensures (n as real * 1.0 * 0.5).Floor == n / 2 && (n as real * 0.5 * 1.0).Floor == n / 2
  {}

  /**
   * Nothing for an unwilling worker or one the next segment does not fit; one segment on
   * the burst tier; the longest span that fits here for a worker neither near its budget
   * nor unsteady; and for one that is either or both, half or a quarter of the longest
   * span it could hold anywhere, within what fits here, but at least one segment.
   */
  lemma OfferByTelemetry(c: Settings, w: AdaptiveWorker, start: nat)
    requires start <= |c.costs|
    ensures var here, anywhere := MaxSpan(c.costs, Usable(c, w), start), LongestSpan(c.costs, Usable(c, w));
            var near, unsteady := NearBudget(c, w.telemetry), Unsteady(c, w.telemetry);
            TargetChunkLength(c, w, start)
            == if here == 0 || !Willing(c, w.telemetry) then 0
               else if w.tier == 3 then 1
               else if near && unsteady then AtLeastOne(here, anywhere / 4)
               else if near || unsteady then AtLeastOne(here, anywhere / 2)
               else here
  {
    var budget := Usable(c, w);
    Halves(LongestSpan(c.costs, budget));
    assert LongestWindow(c.costs, budget, LongestSpan(c.costs, budget));
    assert Fits(c.costs, budget, start, MaxSpan(c.costs, budget, start));
  }

  /** One telemetry is no better than another: no less loaded, failing or jittering, and no longer up or freer. */
  predicate NoBetter(t: Telemetry, u: Telemetry) {
    && t.gpuBusy >= u.gpuBusy && t.cpuBusy >= u.cpuBusy && t.failureRate >= u.failureRate
    && t.jitterMs >= u.jitterMs && t.uptimeMs <= u.uptimeMs && t.vramFreeMB <= u.vramFreeMB
  }

  /** Raising a load, the failure rate or the jitter, or lowering uptime or free memory, never raises an offer. */
  lemma WorseTelemetryOffersNoMore(c: Settings, w: AdaptiveWorker, u: Telemetry, start: nat)
    requires start <= |c.costs| && NoBetter(w.telemetry, u)
    ensures TargetChunkLength(c, w, start) <= TargetChunkLength(c, w.(telemetry := u), start)
  {
    hide TargetChunkLength, MaxSpan, LongestSpan;
    var v := w.(telemetry := u);
    OfferByTelemetry(c, w, start);
    OfferByTelemetry(c, v, start);
    MoreMemoryFitsMore(c.costs, Usable(c, w), Usable(c, v), start);
  }

  lemma MoreMemoryFitsMore(costs: seq<nat>, less: nat, more: nat, start: nat)
    requires start <= |costs| && less <= more
    ensures MaxSpan(costs, less, start) <= MaxSpan(costs, more, start)
    ensures LongestSpan(costs, less) <= LongestSpan(costs, more)
    ensures MaxSpan(costs, more, start) <= LongestSpan(costs, more)
  {
    assert Fits(costs, more, start, MaxSpan(costs, less, start));
    var n := LongestSpan(costs, less);
    assert LongestWindow(costs, less, n) && LongestWindow(costs, more, LongestSpan(costs, more));
    var lo: nat :| Fits(costs, less, lo, n);
    assert Fits(costs, more, lo, n);
    assert Fits(costs, more, start, MaxSpan(costs, more, start));
  }

  // --- Who may take the next chunk ---

  predicate CanRoll(c: Settings, w: AdaptiveWorker) {
    && w.tier != 3 && w.telemetry.uptimeMs >= c.longLivedMs
    && !OverBudget(c, w.telemetry) && w.telemetry.failureRate < 0.1
  }

  /** The same worker again only as a rolling continuation. */
  predicate MayFollow(c: Settings, w: AdaptiveWorker, previous: Option<WorkerId>) {
    previous == Some(w.id) ==> CanRoll(c, w)
  }

  predicate Eligible(c: Settings, w: AdaptiveWorker, start: nat, previous: Option<WorkerId>)
    requires start <= |c.costs|
  {
    TargetChunkLength(c, w, start) >= 1 && MayFollow(c, w, previous)
  }

  /**
   * Who is eligible: a willing worker the next segment fits; and the worker of the last
   * chunk only off the burst tier, long up, and with less than a tenth of failures.
   */
  lemma WhoIsEligible(c: Settings, w: AdaptiveWorker, start: nat, previous: Option<WorkerId>)
    requires start < |c.costs|
    ensures Eligible(c, w, start, previous) <==>
              && c.costs[start] <= Usable(c, w) && Willing(c, w.telemetry)
              && (previous == Some(w.id) ==>
                    w.tier != 3 && w.telemetry.uptimeMs >= c.longLivedMs && w.telemetry.failureRate < 0.1)
  {
    hide TargetChunkLength;
    OfferedNothing(c, w, start);
  }

  /** What is offered does not depend on the order of past assignments. */
  lemma OrderIsIrrelevant(c: Settings, w: AdaptiveWorker, order: nat, start: nat, previous: Option<WorkerId>)
    requires start <= |c.costs|
    ensures TargetChunkLength(c, w.(lastOrder := order), start) == TargetChunkLength(c, w, start)
    ensures Eligible(c, w.(lastOrder := order), start, previous) == Eligible(c, w, start, previous)
  {
    hide MaxSpan, LongestSpan, Available, LoadScale, StabilityScale, OverBudget;
    SameScales(c, w, order);
  }

  lemma SameScales(c: Settings, w: AdaptiveWorker, order: nat)
    ensures Available(c, w.(lastOrder := order)) == Available(c, w)
    ensures StabilityScale(c, w.(lastOrder := order)) == StabilityScale(c, w)
  {}

  /** An offer never reaches past the end of the model. */
  lemma OfferStaysInside(c: Settings, w: AdaptiveWorker, start: nat)
    requires start <= |c.costs|
    ensures start + TargetChunkLength(c, w, start) <= |c.costs|
  {
    if TargetChunkLength(c, w, start) > 0 {
      OfferFits(c, w, start);
    }
  }
}
