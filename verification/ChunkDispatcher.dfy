/**
 * The adaptive dispatcher: how candidates are scored, and a run that covers the
 * model chunk by chunk while the ledger learns what was fetched.
 */
module ChunkDispatchers {
  import opened Options
  import opened DurableTypes
  import opened Windows
  import opened ResidencyLedgers
  import opened ChunkOffers

  // --- The score of a candidate ---

  function AtMost(limit: real, x: real): real { if x < limit then x else limit }

  predicate Configured(c: Settings) { c.loadBudget > 0.0 && c.checkpointBytes > 0 }

  function Stability(w: AdaptiveWorker): real {
    AtMost(30.0, w.telemetry.uptimeMs as real / 60000.0)
    + (if w.tier == 1 then 10.0 else if w.tier == 2 then 5.0 else 0.0)
    - w.telemetry.failureRate * 50.0 - AtMost(10.0, w.telemetry.jitterMs as real / 100.0)
  }

  /** The share of the span's bytes the worker already holds, weighed by the span's length. */
  function CacheScore(sizes: seq<nat>, held: set<nat>, start: nat, n: nat): real
    requires start + n <= |sizes|
  {
    var total := Sum(sizes, start, start + n);
    if total == 0 then 0.0 else HeldBytes(sizes, held, start, start + n) as real / total as real * n as real * 12.0
  }

  function TransferAvoidance(c: Settings, w: AdaptiveWorker, n: nat): real
    requires Configured(c)
  {
    AtMost(20.0, w.telemetry.checkpointBytesPerSecond / c.checkpointBytes as real * n as real * 5.0)
  }

  function LoadPenalty(c: Settings, w: AdaptiveWorker): real
    requires Configured(c)
  {
    (w.telemetry.gpuBusy + w.telemetry.cpuBusy) / c.loadBudget * 10.0
  }

  /** Eight for the worker assigned last, less by one for every assignment since, and nothing for a new one. */
  function FreshnessPenalty(w: AdaptiveWorker, counter: nat): int {
    if w.lastOrder == 0 then 0 else if 8 - (counter - w.lastOrder) < 0 then 0 else 8 - (counter - w.lastOrder)
  }

  function Score(c: Settings, sizes: seq<nat>, w: AdaptiveWorker, held: set<nat>, counter: nat, start: nat, n: nat,
                 rolling: bool): real
    requires Configured(c) && start + n <= |sizes|
  {
    n as real * 20.0 + Stability(w) + CacheScore(sizes, held, start, n) + AtMost(25.0, w.telemetry.tokensPerSecond)
    + TransferAvoidance(c, w, n) + (if rolling then 18.0 else 0.0) - LoadPenalty(c, w)
    - FreshnessPenalty(w, counter) as real
  }

  lemma QuotientGrows(a: real, b: real, d: real)
    requires a < b && 0.0 < d
    ensures a / d < b / d
  {}

  lemma ShareOfAll(bytes: nat, n: nat)
    requires 0 < bytes
    ensures bytes as real / bytes as real * n as real * 12.0 == n as real * 12.0
  {}

  /**
   * What moves a score, other things equal: a continuation is worth 18, a wholly held
   * span of some size 12 a segment over one not held at all, the first tier 5 over the
   * second and 10 over the third, and having been assigned last costs 8; more load, and a
   * higher failure rate, always cost something; one more segment, neither held nor sent
   * anywhere, is worth 20.
   */
  lemma WhatMovesAScore(c: Settings, sizes: seq<nat>, w: AdaptiveWorker, held: set<nat>, counter: nat, start: nat,
                        n: nat, rolling: bool, t: Telemetry)
    requires Configured(c) && start + n <= |sizes|
    ensures Score(c, sizes, w, held, counter, start, n, true) == Score(c, sizes, w, held, counter, start, n, false)
                                                                 + 18.0
    ensures Sum(sizes, start, start + n) > 0 && (forall k :: start <= k < start + n ==> k in held) ==>
              Score(c, sizes, w, held, counter, start, n, rolling)
              == Score(c, sizes, w, {}, counter, start, n, rolling) + 12.0 * n as real
    ensures var third := Score(c, sizes, w.(tier := 3), held, counter, start, n, rolling);
            && Score(c, sizes, w.(tier := 2), held, counter, start, n, rolling) == third + 5.0
            && Score(c, sizes, w.(tier := 1), held, counter, start, n, rolling) == third + 10.0
    ensures w.telemetry.checkpointBytesPerSecond == 0.0 && start + n + 1 <= |sizes| ==>
              Score(c, sizes, w, {}, counter, start, n + 1, rolling)
              == Score(c, sizes, w, {}, counter, start, n, rolling) + 20.0
    ensures counter > 0 ==>
              Score(c, sizes, w.(lastOrder := counter), held, counter, start, n, rolling)
              == Score(c, sizes, w.(lastOrder := 0), held, counter, start, n, rolling) - 8.0
    ensures t == w.telemetry.(gpuBusy := t.gpuBusy, cpuBusy := t.cpuBusy)
            && t.gpuBusy + t.cpuBusy > w.telemetry.gpuBusy + w.telemetry.cpuBusy ==>
              Score(c, sizes, w.(telemetry := t), held, counter, start, n, rolling)
              < Score(c, sizes, w, held, counter, start, n, rolling)
    ensures t == w.telemetry.(failureRate := t.failureRate) && t.failureRate > w.telemetry.failureRate ==>
              Score(c, sizes, w.(telemetry := t), held, counter, start, n, rolling)
              < Score(c, sizes, w, held, counter, start, n, rolling)
  {
    hide Sum, HeldBytes, Stability, CacheScore, TransferAvoidance, LoadPenalty, FreshnessPenalty;
    HoldingMoves(sizes, held, start, n);
    OrderMoves(c, w, counter, n);
    TierMoves(c, w, counter, n);
    if w.telemetry.checkpointBytesPerSecond == 0.0 && start + n + 1 <= |sizes| {
      HoldingMoves(sizes, {}, start, n + 1);
      NothingSent(c, w, n);
      NothingSent(c, w, n + 1);
    }
    if t == w.telemetry.(gpuBusy := t.gpuBusy, cpuBusy := t.cpuBusy)
       && t.gpuBusy + t.cpuBusy > w.telemetry.gpuBusy + w.telemetry.cpuBusy {
      LoadMoves(c, w, counter, n, t);
    }
    if t == w.telemetry.(failureRate := t.failureRate) && t.failureRate > w.telemetry.failureRate {
      FailuresMove(c, w, counter, n, t);
    }
  }

  lemma OrderMoves(c: Settings, w: AdaptiveWorker, counter: nat, n: nat)
    requires Configured(c)
    ensures forall k: nat :: var v := w.(lastOrder := k);
              && Stability(v) == Stability(w) && TransferAvoidance(c, v, n) == TransferAvoidance(c, w, n)
              && LoadPenalty(c, v) == LoadPenalty(c, w)
    ensures FreshnessPenalty(w.(lastOrder := 0), counter) == 0
    ensures counter > 0 ==> FreshnessPenalty(w.(lastOrder := counter), counter) == 8
  {}

  lemma NothingSent(c: Settings, w: AdaptiveWorker, n: nat)
    requires Configured(c) && w.telemetry.checkpointBytesPerSecond == 0.0
    ensures TransferAvoidance(c, w, n) == 0.0
  {}

  lemma TierMoves(c: Settings, w: AdaptiveWorker, counter: nat, n: nat)
    requires Configured(c)
    ensures forall k: nat :: var v := w.(tier := k);
              && TransferAvoidance(c, v, n) == TransferAvoidance(c, w, n) && LoadPenalty(c, v) == LoadPenalty(c, w)
              && FreshnessPenalty(v, counter) == FreshnessPenalty(w, counter)
    ensures Stability(w.(tier := 2)) == Stability(w.(tier := 3)) + 5.0
    ensures Stability(w.(tier := 1)) == Stability(w.(tier := 3)) + 10.0
  {}

  lemma LoadMoves(c: Settings, w: AdaptiveWorker, counter: nat, n: nat, t: Telemetry)
    requires Configured(c) && t == w.telemetry.(gpuBusy := t.gpuBusy, cpuBusy := t.cpuBusy)
    requires t.gpuBusy + t.cpuBusy > w.telemetry.gpuBusy + w.telemetry.cpuBusy
    ensures var v := w.(telemetry := t);
            && Stability(v) == Stability(w) && TransferAvoidance(c, v, n) == TransferAvoidance(c, w, n)
            && LoadPenalty(c, v) > LoadPenalty(c, w) && FreshnessPenalty(v, counter) == FreshnessPenalty(w, counter)
  {
    QuotientGrows(w.telemetry.gpuBusy + w.telemetry.cpuBusy, t.gpuBusy + t.cpuBusy, c.loadBudget);
  }

  lemma FailuresMove(c: Settings, w: AdaptiveWorker, counter: nat, n: nat, t: Telemetry)
    requires Configured(c) && t == w.telemetry.(failureRate := t.failureRate)
    requires t.failureRate > w.telemetry.failureRate
    ensures var v := w.(telemetry := t);
            && Stability(v) < Stability(w) && TransferAvoidance(c, v, n) == TransferAvoidance(c, w, n)
            && LoadPenalty(c, v) == LoadPenalty(c, w) && FreshnessPenalty(v, counter) == FreshnessPenalty(w, counter)
  {}

  /**
   * What the rest of the telemetry is worth: a point for each minute up to thirty, a point
   * off for each tenth of a second of jitter up to ten, a point for each token a second up
   * to twenty-five, and five for each segment whose checkpoint goes out in a second up to twenty.
   */
  lemma WhatTelemetryIsWorth(c: Settings, sizes: seq<nat>, w: AdaptiveWorker, held: set<nat>, counter: nat, start: nat,
                             n: nat, rolling: bool, minutes: nat, tenths: nat, speed: real)
    requires Configured(c) && start + n <= |sizes| && speed >= 0.0
    ensures var t, cap := w.telemetry, if minutes < 30 then minutes else 30;
            Score(c, sizes, w.(telemetry := t.(uptimeMs := 60000 * minutes)), held, counter, start, n, rolling)
            == Score(c, sizes, w.(telemetry := t.(uptimeMs := 0)), held, counter, start, n, rolling) + cap as real
    ensures var t, cap := w.telemetry, if tenths < 10 then tenths else 10;
            Score(c, sizes, w.(telemetry := t.(jitterMs := 100 * tenths)), held, counter, start, n, rolling)
            == Score(c, sizes, w.(telemetry := t.(jitterMs := 0)), held, counter, start, n, rolling) - cap as real
    ensures var t, cap := w.telemetry, if speed < 25.0 then speed else 25.0;
            Score(c, sizes, w.(telemetry := t.(tokensPerSecond := speed)), held, counter, start, n, rolling)
            == Score(c, sizes, w.(telemetry := t.(tokensPerSecond := 0.0)), held, counter, start, n, rolling) + cap
    ensures var t, cap := w.telemetry, if n < 4 then 5 * n else 20;
            var bytes := c.checkpointBytes as real;
            Score(c, sizes, w.(telemetry := t.(checkpointBytesPerSecond := bytes)), held, counter, start, n, rolling)
            == Score(c, sizes, w.(telemetry := t.(checkpointBytesPerSecond := 0.0)), held, counter, start, n, rolling)
               + cap as real
  {
    hide CacheScore, Sum, HeldBytes, Stability, TransferAvoidance, LoadPenalty, FreshnessPenalty;
    var t := w.telemetry;
    UptimeCounts(w, minutes, tenths);
    SendingCounts(c, w, n);
    OthersCountAlike(c, w, counter, n, t.(uptimeMs := 60000 * minutes));
    OthersCountAlike(c, w, counter, n, t.(uptimeMs := 0));
    OthersCountAlike(c, w, counter, n, t.(jitterMs := 100 * tenths));
    OthersCountAlike(c, w, counter, n, t.(jitterMs := 0));
    OthersCountAlike(c, w, counter, n, t.(tokensPerSecond := speed));
    OthersCountAlike(c, w, counter, n, t.(tokensPerSecond := 0.0));
    OthersCountAlike(c, w, counter, n, t.(checkpointBytesPerSecond := c.checkpointBytes as real));
    OthersCountAlike(c, w, counter, n, t.(checkpointBytesPerSecond := 0.0));
  }

  /** What does not read a changed reading stays as it was. */
  lemma OthersCountAlike(c: Settings, w: AdaptiveWorker, counter: nat, n: nat, u: Telemetry)
    requires Configured(c)
    ensures var v, t := w.(telemetry := u), w.telemetry;
            && FreshnessPenalty(v, counter) == FreshnessPenalty(w, counter)
            && (u.gpuBusy == t.gpuBusy && u.cpuBusy == t.cpuBusy ==> LoadPenalty(c, v) == LoadPenalty(c, w))
            && (u.checkpointBytesPerSecond == t.checkpointBytesPerSecond ==>
                  TransferAvoidance(c, v, n) == TransferAvoidance(c, w, n))
            && (u.uptimeMs == t.uptimeMs && u.jitterMs == t.jitterMs && u.failureRate == t.failureRate ==>
                  Stability(v) == Stability(w))
  {}

  lemma UptimeCounts(w: AdaptiveWorker, minutes: nat, tenths: nat)
    ensures var t, cap := w.telemetry, if minutes < 30 then minutes else 30;
            Stability(w.(telemetry := t.(uptimeMs := 60000 * minutes)))
            == Stability(w.(telemetry := t.(uptimeMs := 0))) + cap as real
    ensures var t, cap := w.telemetry, if tenths < 10 then tenths else 10;
            Stability(w.(telemetry := t.(jitterMs := 100 * tenths)))
            == Stability(w.(telemetry := t.(jitterMs := 0))) - cap as real
  {
    assert (60000 * minutes) as real / 60000.0 == minutes as real;
    assert (100 * tenths) as real / 100.0 == tenths as real;
  }

  lemma SendingCounts(c: Settings, w: AdaptiveWorker, n: nat)
    requires Configured(c)
    ensures var t, bytes := w.telemetry, c.checkpointBytes as real;
            && TransferAvoidance(c, w.(telemetry := t.(checkpointBytesPerSecond := bytes)), n)
               == (if n < 4 then 5 * n else 20) as real
            && TransferAvoidance(c, w.(telemetry := t.(checkpointBytesPerSecond := 0.0)), n) == 0.0
  {
    var bytes := c.checkpointBytes as real;
    assert bytes / bytes == 1.0;
  }

  lemma HoldingMoves(sizes: seq<nat>, held: set<nat>, start: nat, n: nat)
    requires start + n <= |sizes|
    ensures CacheScore(sizes, {}, start, n) == 0.0
    ensures Sum(sizes, start, start + n) > 0 && (forall k :: start <= k < start + n ==> k in held) ==>
              CacheScore(sizes, held, start, n) == 12.0 * n as real
  {
    hide Sum, HeldBytes;
    NoneHeld(sizes, start, start + n);
    if Sum(sizes, start, start + n) > 0 {
      ShareOfAll(Sum(sizes, start, start + n), n);
      if forall k :: start <= k < start + n ==> k in held {
        AllHeld(sizes, held, start, start + n);
      }
    }
  }

  lemma {:induction false} NoneHeld(sizes: seq<nat>, lo: nat, hi: nat)
    requires lo <= hi <= |sizes|
    ensures HeldBytes(sizes, {}, lo, hi) == 0
    decreases hi - lo
  {
    if lo < hi {
      NoneHeld(sizes, lo, hi - 1);
    }
  }

  // --- One run over the whole model ---

  datatype Assignment = Assignment(
    worker: WorkerId, first: nat, last: nat, rolling: bool, missing: seq<nat>,
    totalBytes: nat, downloadedBytes: nat, residentBytes: nat)

  /** What a choice depends on: the workers, the count of assignments so far, and who holds what. */
  datatype Board = Board(workers: map<WorkerId, AdaptiveWorker>, counter: nat, held: map<WorkerId, set<nat>>)

  function HeldIn(held: map<WorkerId, set<nat>>, w: WorkerId): set<nat> { if w in held then held[w] else {} }

  function WithHeld(held: map<WorkerId, set<nat>>, w: WorkerId, list: seq<nat>): map<WorkerId, set<nat>> {
    if list == [] then held else held[w := HeldIn(held, w) + set k | k in list]
  }

  lemma HeldOneMore(held: map<WorkerId, set<nat>>, w: WorkerId, list: seq<nat>, x: nat)
    ensures var h := WithHeld(held, w, list); WithHeld(held, w, list + [x]) == h[w := HeldIn(h, w) + {x}]
  {
    assert (set k | k in list + [x]) == (set k | k in list) + {x};
    if list == [] {
      assert (set k | k in list) == {};
    }
    assert HeldIn(held, w) + (set k | k in list + [x]) == HeldIn(WithHeld(held, w, list), w) + {x};
  }

  /** After a chunk its worker is the one assigned last, and holds what it fetched. */
  function BoardAfter(b: Board, a: Assignment): Board
    requires a.worker in b.workers
  {
    Board(b.workers[a.worker := b.workers[a.worker].(lastOrder := b.counter + 1)], b.counter + 1,
          WithHeld(b.held, a.worker, a.missing))
  }

  function WorkerOf(previous: Option<Assignment>): Option<WorkerId> {
    if previous.None? then None else Some(previous.value.worker)
  }

  function StartAfter(previous: Option<Assignment>): nat {
    if previous.None? then 0 else previous.value.last + 1
  }

  function Last(done: seq<Assignment>): Option<Assignment> {
    if done == [] then None else Some(done[|done| - 1])
  }

  predicate Identified(workers: map<WorkerId, AdaptiveWorker>) { forall w :: w in workers ==> workers[w].id == w }

  /** The model a dispatcher serves: its settings, the size of each artifact, and the collation of identifiers. */
  datatype Model = Model(c: Settings, sizes: seq<nat>, order: WorkerId -> int)

  predicate Sized(m: Model) { Configured(m.c) && |m.sizes| == |m.c.costs| }

  function ScoreOf(m: Model, b: Board, w: WorkerId, start: nat, previous: Option<WorkerId>): real
    requires Sized(m) && start <= |m.c.costs| && w in b.workers
  {
    OfferStaysInside(m.c, b.workers[w], start);
    Score(m.c, m.sizes, b.workers[w], HeldIn(b.held, w), b.counter, start, TargetChunkLength(m.c, b.workers[w], start),
          previous == Some(w))
  }

  /** The higher score wins, and between equal scores the earlier identifier. */
  predicate Outscores(m: Model, b: Board, start: nat, previous: Option<WorkerId>, v: WorkerId, w: WorkerId)
    requires Sized(m) && start <= |m.c.costs| && v in b.workers && w in b.workers
  {
    var x, y := ScoreOf(m, b, v, start, previous), ScoreOf(m, b, w, start, previous);
    x > y || (x == y && m.order(v) < m.order(w))
  }

  /** An eligible worker that no eligible one outscores. */
  ghost predicate BestChoice(m: Model, b: Board, start: nat, previous: Option<WorkerId>, w: WorkerId)
    requires Sized(m) && start <= |m.c.costs|
  {
    && w in b.workers && Eligible(m.c, b.workers[w], start, previous)
    && forall v :: v in b.workers && Eligible(m.c, b.workers[v], start, previous) ==>
         !Outscores(m, b, start, previous, v, w)
  }

  /** A chunk that starts where the last one ended, on the best worker for it, of exactly the length it is offered. */
  ghost predicate Follows(m: Model, b: Board, previous: Option<Assignment>, a: Assignment)
    requires Sized(m)
  {
    && a.first == StartAfter(previous) && a.first <= a.last < |m.c.costs|
    && BestChoice(m, b, a.first, WorkerOf(previous), a.worker)
    && a.last - a.first + 1 == TargetChunkLength(m.c, b.workers[a.worker], a.first)
    && a.rolling == (WorkerOf(previous) == Some(a.worker))
    && a.missing == Missing(HeldIn(b.held, a.worker), a.first, a.last + 1)
  }

  lemma ChosenIsStored(m: Model, b: Board, previous: Option<Assignment>, a: Assignment)
    requires Sized(m) && Follows(m, b, previous, a)
    ensures a.worker in b.workers
  {}

  /** The board after these chunks. */
  function BoardOf(b: Board, done: seq<Assignment>): Board {
    if done == [] then b
    else
      var before, a := BoardOf(b, done[..|done| - 1]), done[|done| - 1];
      if a.worker in before.workers then BoardAfter(before, a) else before
  }

  /** Every chunk follows the one before it, on the board as it is then. */
  ghost predicate TilesSoFar(m: Model, b: Board, done: seq<Assignment>)
    requires Sized(m)
    decreases |done|
  {
    done == [] ||
    (var before := done[..|done| - 1];
     TilesSoFar(m, b, before) && Follows(m, BoardOf(b, before), Last(before), done[|done| - 1]))
  }

  /** Same workers, whatever order they were last assigned in. */
  predicate SameButOrder(m: map<WorkerId, AdaptiveWorker>, n: map<WorkerId, AdaptiveWorker>) {
    m.Keys == n.Keys && forall w :: w in m ==> n[w] == m[w].(lastOrder := n[w].lastOrder)
  }

  lemma {:induction false} BoardsKeepWorkers(b: Board, done: seq<Assignment>)
    ensures SameButOrder(b.workers, BoardOf(b, done).workers)
  {
    if done != [] {
      BoardsKeepWorkers(b, done[..|done| - 1]);
    }
  }

  /** A chunk fits the memory of a willing worker, is single on the burst tier, and repeats a steady worker only. */
  predicate Sound(c: Settings, workers: map<WorkerId, AdaptiveWorker>, previous: Option<WorkerId>, a: Assignment) {
    && a.first <= a.last < |c.costs|
    && a.worker in workers
    && Fits(c.costs, Usable(c, workers[a.worker]), a.first, a.last - a.first + 1)
    && (workers[a.worker].tier == 3 ==> a.first == a.last)
    && Willing(c, workers[a.worker].telemetry)
    && (previous == Some(a.worker) ==>
          && a.rolling && workers[a.worker].tier != 3 && workers[a.worker].telemetry.uptimeMs >= c.longLivedMs
          && workers[a.worker].telemetry.failureRate < 0.1)
  }

  lemma FollowsSoundly(m: Model, b: Board, workers: map<WorkerId, AdaptiveWorker>, previous: Option<Assignment>,
                       a: Assignment)
    requires Sized(m) && Identified(workers) && SameButOrder(workers, b.workers) && Follows(m, b, previous, a)
    ensures Sound(m.c, workers, WorkerOf(previous), a)
  {
    hide TargetChunkLength, Outscores, Eligible;
    var x := workers[a.worker];
    assert b.workers[a.worker] == x.(lastOrder := b.workers[a.worker].lastOrder);
    OrderIsIrrelevant(m.c, x, b.workers[a.worker].lastOrder, a.first, WorkerOf(previous));
    OfferFits(m.c, x, a.first);
    WhoIsEligible(m.c, x, a.first, WorkerOf(previous));
  }

  /** What tiling means, chunk by chunk: contiguous from the first segment, and every chunk sound. */
  lemma {:induction false} TilesMeans(m: Model, b: Board, done: seq<Assignment>, i: nat)
    requires Sized(m) && Identified(b.workers) && TilesSoFar(m, b, done) && i < |done|
    ensures done[i].first == (if i == 0 then 0 else done[i - 1].last + 1)
    ensures Sound(m.c, b.workers, if i == 0 then None else Some(done[i - 1].worker), done[i])
    decreases |done|
  {
    hide Sound, Identified, BestChoice, SameButOrder;
    var n := |done| - 1;
    if i == n {
      BoardsKeepWorkers(b, done[..n]);
      FollowsSoundly(m, BoardOf(b, done[..n]), b.workers, Last(done[..n]), done[n]);
    } else {
      TilesMeans(m, b, done[..n], i);
    }
  }

  /** Each chunk of a run was the best choice when it was made, and of the length its worker was offered. */
  lemma {:induction false} EachChunkWasBest(m: Model, b: Board, done: seq<Assignment>, i: nat)
    requires Sized(m) && TilesSoFar(m, b, done) && i < |done|
    ensures Follows(m, BoardOf(b, done[..i]), Last(done[..i]), done[i])
    decreases |done|
  {
    hide Follows;
    var n := |done| - 1;
    if i < n {
      EachChunkWasBest(m, b, done[..n], i);
      assert done[..n][..i] == done[..i];
    }
  }

  datatype RunOutcome = Covered | NoEligibleWorker(segment: nat)

  /** Everything of the list is new to this worker since its inventory was last replaced. */
  predicate AllNew(fetched: map<WorkerId, set<nat>>, w: WorkerId, list: seq<nat>) {
    w in fetched ==> forall k :: k in list ==> k !in fetched[w]
  }

  function WithFetched(fetched: map<WorkerId, set<nat>>, w: WorkerId, list: seq<nat>): map<WorkerId, set<nat>> {
    fetched[w := (if w in fetched then fetched[w] else {}) + set k | k in list]
  }

  /** What has been fetched after these chunks. */
  function FetchedAfter(fetched: map<WorkerId, set<nat>>, done: seq<Assignment>): map<WorkerId, set<nat>> {
    if done == [] then fetched
    else WithFetched(FetchedAfter(fetched, done[..|done| - 1]), done[|done| - 1].worker, done[|done| - 1].missing)
  }

  /** Whatever a chunk fetches was fetched by no chunk before it, in this run or an earlier one. */
  predicate FetchesOnce(fetched: map<WorkerId, set<nat>>, done: seq<Assignment>)
    decreases |done|
  {
    done == [] ||
    (&& FetchesOnce(fetched, done[..|done| - 1])
     && AllNew(FetchedAfter(fetched, done[..|done| - 1]), done[|done| - 1].worker, done[|done| - 1].missing))
  }

  /** A chunk's report adds up: what was there and what was fetched make the chunk. */
  predicate Balanced(sizes: seq<nat>, a: Assignment) {
    && a.first <= a.last < |sizes|
    && a.totalBytes == Sum(sizes, a.first, a.last + 1)
    && a.residentBytes + a.downloadedBytes == a.totalBytes
    && a.downloadedBytes == BytesOf(sizes, a.missing)
  }

  /** What a browser claims to have cached. */
  datatype CacheArtifact = CacheArtifact(segment: nat, sha256: string)

  function SegmentsOf(artifacts: seq<CacheArtifact>): seq<nat> {
    if artifacts == [] then [] else SegmentsOf(artifacts[..|artifacts| - 1]) + [artifacts[|artifacts| - 1].segment]
  }

  lemma {:induction false} SegmentsOfAt(artifacts: seq<CacheArtifact>, k: nat)
    requires k < |artifacts|
    ensures |SegmentsOf(artifacts)| == |artifacts| && SegmentsOf(artifacts)[k] == artifacts[k].segment
  {
    if 1 < |artifacts| {
      SegmentsOfAt(artifacts[..|artifacts| - 1], if k < |artifacts| - 1 then k else 0);
    }
  }

  lemma SegmentsOfNext(artifacts: seq<CacheArtifact>, i: nat)
    requires i < |artifacts|
    ensures SegmentsOf(artifacts[..i + 1]) == SegmentsOf(artifacts[..i]) + [artifacts[i].segment]
  {
    assert artifacts[..i + 1][..i] == artifacts[..i];
  }

  predicate Distinct(list: seq<nat>) { forall i, j | 0 <= i < j < |list| :: list[i] != list[j] }

  function Members(list: seq<nat>): set<nat> { set k | k in list }

  /** A list has as many members as entries exactly when none is repeated. */
  lemma {:induction false} DistinctCounts(list: seq<nat>)
    ensures |Members(list)| <= |list|
    ensures |Members(list)| == |list| <==> Distinct(list)
  {
    if list != [] {
      var n := |list| - 1;
      var front, last := list[..n], list[n];
      DistinctCounts(front);
      assert list == front + [last];
      assert Members(list) == Members(front) + {last};
      assert Distinct(list) <==> Distinct(front) && last !in front by {
        assert forall i :: 0 <= i < n ==> front[i] == list[i];
      }
      if last in front {
        assert Members(list) == Members(front);
      } else {
        assert |Members(front) + {last}| == |Members(front)| + 1;
      }
    }
  }

  lemma SameAsListed(list: seq<nat>)
    ensures Members(list) == set i | 0 <= i < |list| :: list[i]
  {}

  /** One worker holds exactly this now, and every other what it held. */
  ghost predicate Inventory(before: map<WorkerId, set<nat>>, after: map<WorkerId, set<nat>>, w: WorkerId,
                            held: set<nat>)
  {
    && (if w in after then after[w] else {}) == held
    && forall other :: other != w ==>
         (if other in after then after[other] else {}) == (if other in before then before[other] else {})
  }

  class AdaptiveChunkDispatcher {
    const c: Settings
    /** The digest the manifest gives for each segment's artifact. */
    const digests: seq<string>
    const ledger: ArtifactResidencyLedger
    /** The collation order of identifiers. */
    const order: WorkerId -> int
    var workers: map<WorkerId, AdaptiveWorker>
    var assignmentCounter: nat
    ghost var fetched: map<WorkerId, set<nat>>

    constructor (c: Settings, digests: seq<string>, ledger: ArtifactResidencyLedger, order: WorkerId -> int)
      requires ledger.Valid() && |ledger.sizes| == |c.costs| == |digests| && Configured(c)
      ensures this.c == c && this.digests == digests && this.ledger == ledger && this.order == order
      ensures workers == map[] && assignmentCounter == 0 && Valid()
    {
      this.c, this.digests, this.ledger, this.order := c, digests, ledger, order;
      workers, assignmentCounter, fetched := map[], 0, map[];
    }

    function Served(): Model { Model(c, ledger.sizes, order) }

    function Now(): Board
      reads this, ledger
    {
      Board(workers, assignmentCounter, ledger.residentByWorker)
    }

    /** The ledger fits the model, and still holds whatever was fetched. */
    ghost predicate Valid()
      reads this, ledger
    {
      && ledger.Valid() && |c.costs| == |digests| && Sized(Served())
      && Identified(workers)
      && StillHeld(ledger, fetched)
    }

    /** Every hit is known and listed once, and attested by exactly one artifact with the manifest's digest. */
    predicate Attested(hits: seq<nat>, artifacts: seq<CacheArtifact>) {
      && InModel(hits) && Distinct(hits) && |artifacts| == |hits|
      && Distinct(SegmentsOf(artifacts))
      && forall i | 0 <= i < |artifacts| :: Matches(hits, artifacts[i])
    }

    predicate Matches(hits: seq<nat>, a: CacheArtifact) {
      a.segment in hits && a.segment < |digests| && a.sha256 == digests[a.segment]
    }

    predicate InModel(hits: seq<nat>) { forall i | 0 <= i < |hits| :: hits[i] < |c.costs| }

    /** Check a reported inventory. */
    method CheckInventory(hits: seq<nat>, artifacts: seq<CacheArtifact>) returns (ok: bool)
      requires |digests| == |c.costs|
      ensures ok == Attested(hits, artifacts)
    {
      for i := 0 to |hits|
        invariant forall k :: 0 <= k < i ==> hits[k] < |c.costs|
      {
        if hits[i] >= |c.costs| { return false; }
      }
      DistinctCounts(hits);
      if |Members(hits)| != |hits| || |artifacts| != |hits| { return false; }
      var indexes: set<nat> := {};
      for i := 0 to |artifacts|
        invariant indexes == Members(SegmentsOf(artifacts[..i])) && Distinct(SegmentsOf(artifacts[..i]))
        invariant forall k :: 0 <= k < i ==> Matches(hits, artifacts[k])
      {
        SegmentsOfNext(artifacts, i);
        var a := artifacts[i];
        if a.segment >= |c.costs| || a.segment in indexes || a.segment !in hits || a.sha256 != digests[a.segment] {
          NotAttested(hits, artifacts, i);
          return false;
        }
        indexes := indexes + {a.segment};
      }
      assert artifacts[..|artifacts|] == artifacts;
      return true;
    }

    /** Check a reported inventory, then make it the worker's. */
    method ValidateAndSynchronize(id: WorkerId, hits: seq<nat>, artifacts: seq<CacheArtifact>) returns (ok: bool)
      requires Valid()
      modifies ledger
      ensures ledger.Valid() && ok == Attested(hits, artifacts)
      ensures ok ==> Inventory(old(ledger.residentByWorker), ledger.residentByWorker, id, Members(hits))
      ensures !ok ==> ledger.residentByWorker == old(ledger.residentByWorker)
    {
      ok := CheckInventory(hits, artifacts);
      if !ok { return; }
      ok := ledger.SynchronizeWorker(id, hits);
      SameAsListed(hits);
      assert forall w :: ledger.HeldBy(w) == if w in ledger.residentByWorker then ledger.residentByWorker[w] else {};
    }

    lemma NotAttested(hits: seq<nat>, artifacts: seq<CacheArtifact>, i: nat)
      requires i < |artifacts|
      requires artifacts[i].segment in SegmentsOf(artifacts[..i]) || !Matches(hits, artifacts[i])
      ensures !Attested(hits, artifacts)
    {
      if artifacts[i].segment in SegmentsOf(artifacts[..i]) {
        var earlier := artifacts[..i];
        SegmentsOfAt(artifacts, i);
        if earlier != [] {
          SegmentsOfAt(earlier, 0);
        }
        var k :| 0 <= k < |SegmentsOf(earlier)| && SegmentsOf(earlier)[k] == artifacts[i].segment;
        SegmentsOfAt(earlier, k);
        SegmentsOfAt(artifacts, k);
      }
    }

    /** A registration replaces whatever was known of the worker, and it has been assigned nothing yet. */
    method RegisterWorker(id: WorkerId, tier: nat, telemetry: Telemetry, hits: seq<nat>, artifacts: seq<CacheArtifact>)
      returns (ok: bool)
      requires Valid()
      modifies this`workers, this`fetched, ledger
      ensures Valid() && ok == (1 <= tier <= 3 && Attested(hits, artifacts))
      ensures if ok then
                && workers == old(workers)[id := AdaptiveWorker(id, tier, telemetry, 0)]
                && Inventory(old(ledger.residentByWorker), ledger.residentByWorker, id, Members(hits))
                && fetched == old(fetched) - {id}
              else workers == old(workers) && ledger.residentByWorker == old(ledger.residentByWorker)
                   && fetched == old(fetched)
    {
      if tier < 1 || tier > 3 { return false; }
      ok := ValidateAndSynchronize(id, hits, artifacts);
      if ok {
        workers := workers[id := AdaptiveWorker(id, tier, telemetry, 0)];
        fetched := fetched - {id};
      }
    }

    /** A heartbeat refreshes telemetry and inventory of a known worker, and nothing else of it. */
    method UpdateHeartbeat(id: WorkerId, telemetry: Telemetry, hits: seq<nat>, artifacts: seq<CacheArtifact>)
      returns (ok: bool)
      requires Valid()
      modifies this`workers, this`fetched, ledger
      ensures Valid() && ok == (id in old(workers) && Attested(hits, artifacts))
      ensures if ok then
                && workers == old(workers)[id := old(workers)[id].(telemetry := telemetry)]
                && Inventory(old(ledger.residentByWorker), ledger.residentByWorker, id, Members(hits))
                && fetched == old(fetched) - {id}
              else workers == old(workers) && ledger.residentByWorker == old(ledger.residentByWorker)
                   && fetched == old(fetched)
    {
      if id !in workers { return false; }
      ok := ValidateAndSynchronize(id, hits, artifacts);
      if ok {
        workers := workers[id := workers[id].(telemetry := telemetry)];
        fetched := fetched - {id};
      }
    }

    /** The best-scored eligible worker, if any is eligible. */
    method SelectCandidate(start: nat, previous: Option<WorkerId>) returns (best: Option<WorkerId>)
      requires Valid() && start <= |c.costs|
      ensures best.None? ==> forall w :: w in workers ==> !Eligible(c, workers[w], start, previous)
      ensures best.Some? ==> BestChoice(Served(), Now(), start, previous, best.value)
    {
      hide Eligible, ScoreOf, StillHeld, Identified;
      best := None;
      var rest := workers.Keys;
      while rest != {}
        invariant rest <= workers.Keys
        invariant best.None? ==> forall w :: w in workers && w !in rest ==> !Eligible(c, workers[w], start, previous)
        invariant best.Some? ==>
                    && best.value in workers && Eligible(c, workers[best.value], start, previous)
                    && forall w :: w in workers && w !in rest && Eligible(c, workers[w], start, previous) ==>
                         !Outscores(Served(), Now(), start, previous, w, best.value)
        decreases rest
      {
        var w :| w in rest;
        rest := rest - {w};
        if Eligible(c, workers[w], start, previous)
           && (best.None? || Outscores(Served(), Now(), start, previous, w, best.value)) {
          best := Some(w);
        }
      }
    }

    /** Fetch what the worker lacks of a chunk, mark it resident, and report the bytes. */
    method Fetch(w: WorkerId, first: nat, last: nat, rolling: bool) returns (a: Assignment, ok: bool)
      requires Valid() && first <= last < |c.costs|
      modifies ledger, this`fetched
      ensures Valid() && ok
      ensures a.worker == w && a.first == first && a.last == last && a.rolling == rolling
      ensures Balanced(ledger.sizes, a)
      ensures a.missing == Missing(HeldIn(old(ledger.residentByWorker), w), first, last + 1)
      ensures ledger.residentByWorker == WithHeld(old(ledger.residentByWorker), w, a.missing)
      ensures AllNew(old(fetched), w, a.missing) && fetched == WithFetched(old(fetched), w, a.missing)
    {
      hide Missing, BytesOf, HeldBytes, Sum;
      var missing := ledger.MissingArtifacts(w, first, last);
      var downloaded := ledger.MissingArtifactBytes(w, first, last);
      MissingIsExact(ledger.HeldBy(w), first, last + 1);
      BytesAreConserved(ledger.sizes, ledger.HeldBy(w), first, last + 1);
      MarkAll(w, missing);
      AllHeld(ledger.sizes, ledger.HeldBy(w), first, last + 1);
      var total := ledger.ArtifactBytes(first, last);
      var resident := ledger.ResidentArtifactBytes(w, first, last);
      ok := resident == total;
      a := Assignment(w, first, last, rolling, missing, total, downloaded, total - downloaded);
    }

    method MarkAll(w: WorkerId, list: seq<nat>)
      requires Valid() && forall i :: 0 <= i < |list| ==> list[i] < |c.costs|
      modifies ledger, this`fetched
      ensures Valid() && fetched == WithFetched(old(fetched), w, list)
      ensures ledger.residentByWorker == WithHeld(old(ledger.residentByWorker), w, list)
    {
      for i := 0 to |list|
        invariant ledger.Valid() && fetched == old(fetched)
        invariant ledger.residentByWorker == WithHeld(old(ledger.residentByWorker), w, list[..i])
      {
        assert list[..i + 1] == list[..i] + [list[i]];
        HeldOneMore(old(ledger.residentByWorker), w, list[..i], list[i]);
        var _ := ledger.MarkResident(w, list[i]);
      }
      assert list[..|list|] == list;
      fetched := WithFetched(fetched, w, list);
    }

    /** Note who was assigned last. */
    method NoteOrder(w: WorkerId)
      requires Valid() && w in workers
      modifies this`workers, this`assignmentCounter
      ensures Valid() && assignmentCounter == old(assignmentCounter) + 1
      ensures workers == old(workers)[w := old(workers)[w].(lastOrder := assignmentCounter)]
    {
      assignmentCounter := assignmentCounter + 1;
      workers := workers[w := workers[w].(lastOrder := assignmentCounter)];
    }

    /** Choose a worker for the chunk that starts here, and carry the chunk out. */
    method AssignNext(previous: Option<Assignment>) returns (next: Option<Assignment>)
      requires Valid() && StartAfter(previous) < |c.costs|
      modifies this, ledger
      ensures Valid()
      ensures next.None? ==>
                && NoneEligible(c, old(workers), StartAfter(previous), WorkerOf(previous))
                && Now() == old(Now()) && fetched == old(fetched)
      ensures next.Some? ==>
                && Follows(Served(), old(Now()), previous, next.value) && Balanced(ledger.sizes, next.value)
                && Now() == BoardAfter(old(Now()), next.value)
                && AllNew(old(fetched), next.value.worker, next.value.missing)
                && fetched == WithFetched(old(fetched), next.value.worker, next.value.missing)
    {
      hide TargetChunkLength, StillHeld, MayFollow, Balanced, Outscores, WithHeld, WithFetched;
      var first := StartAfter(previous);
      var best := SelectCandidate(first, WorkerOf(previous));
      if best.None? { return None; }
      var w := best.value;
      OfferStaysInside(c, workers[w], first);
      var length := Smaller(TargetChunkLength(c, workers[w], first), |c.costs| - first);
      var a, ok := Fetch(w, first, first + length - 1, WorkerOf(previous) == Some(w));
      NoteOrder(w);
      return Some(a);
    }

    /** Chunk by chunk until the model is covered, or no worker can go on. */
    method Run() returns (outcome: RunOutcome, done: seq<Assignment>)
      requires Valid()
      modifies this, ledger
      ensures Valid() && Now() == BoardOf(old(Now()), done)
      ensures TilesSoFar(Served(), old(Now()), done)
      ensures match outcome
              case Covered => StartAfter(Last(done)) == |c.costs|
              case NoEligibleWorker(k) =>
                k == StartAfter(Last(done)) < |c.costs|
                    && NoneEligible(c, workers, k, WorkerOf(Last(done)))
      ensures forall i :: 0 <= i < |done| ==> Balanced(ledger.sizes, done[i])
      ensures FetchesOnce(old(fetched), done) && fetched == FetchedAfter(old(fetched), done)
    {
      hide BestChoice, Balanced, AllNew, WithFetched, StillHeld, NoneEligible, BoardAfter;
      done := [];
      while StartAfter(Last(done)) < |c.costs|
        invariant Valid() && Now() == BoardOf(old(Now()), done)
        invariant TilesSoFar(Served(), old(Now()), done) && StartAfter(Last(done)) <= |c.costs|
        invariant forall i :: 0 <= i < |done| ==> Balanced(ledger.sizes, done[i])
        invariant FetchesOnce(old(fetched), done) && fetched == FetchedAfter(old(fetched), done)
        decreases |c.costs| - StartAfter(Last(done))
      {
        var next := AssignNext(Last(done));
        if next.None? { return NoEligibleWorker(StartAfter(Last(done))), done; }
        ChosenIsStored(Served(), BoardOf(old(Now()), done), Last(done), next.value);
        assert (done + [next.value])[..|done|] == done;
        done := done + [next.value];
      }
      return Covered, done;
    }
  }

  ghost predicate NoneEligible(c: Settings, workers: map<WorkerId, AdaptiveWorker>, start: nat,
                               previous: Option<WorkerId>)
    requires start <= |c.costs|
  {
    forall w :: w in workers ==> !Eligible(c, workers[w], start, previous)
  }

  predicate StillHeld(ledger: ArtifactResidencyLedger, fetched: map<WorkerId, set<nat>>)
    reads ledger
  {
    forall w :: w in fetched ==> fetched[w] <= ledger.HeldBy(w)
  }
}
