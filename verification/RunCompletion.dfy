/**
 * Requests can be completed: whenever an idle worker is large enough for every
 * segment and the executor answers honestly, a run's own stretches take its
 * request through all its segments to a committed result.
 */
module RunCompletion {
  import opened Options
  import opened RequestStages
  import opened SafeIntegers
  import opened DurableTypes
  import opened Store
  import opened Steps
  import opened Discipline
  import opened Effects
  import opened Runs
  import opened CoordinatorSystem
  import opened Traces
  import opened RunProofs
  import opened CoordinatorTheorems
  import opened Boundaries
  import opened RunLiveness
  import opened StoreChanges
  import opened AttemptOutcomes
  import opened StepOutcomes
  import opened RecoveryOutcomes

  /** A stored worker with memory for every segment. */
  predicate Large(s: Store, cfg: Config, w: WorkerId) {
    w in s.workers && forall i :: 0 <= i < |cfg.segmentVramMB| ==> cfg.segmentVramMB[i] <= s.workers[w].vramMB
  }

  /** An open, uncancelled request at segment `k`, in this stage, of the run's own size. */
  predicate Open(s: Store, r: Run, k: nat, stage: Stage) {
    && k < r.total == |r.cfg.segmentVramMB| && !r.aborted
    && InStage(s.requests, r.id, stage) && s.requests[r.id].totalSegments == r.total
    && r.id !in s.cancellations && r.id !in s.results
    && (forall x :: x in s.checkpoints && x.0 == r.id ==> x.1 < k)
  }

  predicate WorkersNamed(s: Store) {
    forall w :: w in s.workers ==> s.workers[w].id == w
  }

  /** The run is about to start segment `k`, with its input there and a worker for it. */
  ghost predicate Ready(s: Store, r: Run, k: nat, now: nat, w: WorkerId) {
    && r.pc == AtSegment(k) && Open(s, r, k, Queued) && InputReady(s, r.cfg, r.id, k, now)
    && Large(s, r.cfg, w) && s.workers[w].stage == Idle && WorkersNamed(s)
  }

  /** The run is about to make its attempt `n` at segment `k`, with its input there, a worker for it, and tries left. */
  ghost predicate Waiting(s: Store, r: Run, k: nat, n: nat, now: nat, w: WorkerId) {
    && r.pc == AtAttempt(k, n) && n <= r.cfg.maxRetries && (Open(s, r, k, Queued) || Open(s, r, k, RetryWait))
    && InputReady(s, r.cfg, r.id, k, now)
    && Large(s, r.cfg, w) && s.workers[w].stage == Idle && WorkersNamed(s)
  }

  // --- One stretch after another ---

  /** The lease is the request's, the request runs, and the worker is busy with it. */
  predicate Assigned(s: Store, t: Store, l: Lease) {
    && l.requestId in s.requests && l.workerId in s.workers
    && t == s.(leases := s.leases[l.requestId := l],
               requests := s.requests[l.requestId := s.requests[l.requestId].(stage := Running)],
               workers := s.workers[l.workerId := s.workers[l.workerId].(stage := Busy,
                                                                         currentSegment := Some(l.segment))],
               books := t.books)
  }

  /** A dispatch finds a worker, because there is one, and hands it the input of the segment. */
  lemma DispatchAssigns(s: Store, r: Run, k: nat, n: nat, now: nat, big: WorkerId, c: Choice) returns (l: Lease)
    requires Waiting(s, r, k, n, now, big)
    requires c.pick.Some? ==> c.pick.value in s.workers
    requires Picked(s, r.cfg.segmentVramMB[k], c.pick)
    ensures l.requestId == r.id && l.segment == k && now <= l.expiresAt
    ensures l.workerId in s.workers && s.workers[l.workerId].stage == Idle
            && l.generation == s.workers[l.workerId].generation
    ensures var step := Stretch(s, r, now, c);
            && Assigned(s, Replay(s, step.ops), l)
            && step.out == Executing(k, n, Assignment(IdentityOf(l), r.cfg.manifestDigest,
                                                      if k == 0 then None else Some(s.checkpoints[(r.id, k - 1)])))
  {
    hide Assigned, Replay, InputReady, Dispatch;
    assert Candidate(s.workers[big], r.cfg.segmentVramMB[k]);
    var w := s.workers[c.pick.value];
    l := Issue(r.cfg, w, r.id, k, c.attemptId, c.lease, now);
    DispatchHandsOver(r.cfg, s, r.id, k, n, c.pick.value, c.attemptId, c.lease, now);
    LeasingAssigns(s, l);
  }

  lemma LeasingAssigns(s: Store, l: Lease)
    requires l.requestId in s.requests && l.workerId in s.workers
    ensures Assigned(s, WithLease(s, l).(
                        requests := s.requests[l.requestId := s.requests[l.requestId].(stage := Running)],
                        workers := s.workers[l.workerId := s.workers[l.workerId].(stage := Busy,
                                                                                  currentSegment := Some(l.segment))]),
                     l)
  {}

  /** The checkpoint an honest worker relays for a lease. */
  function RelayedBy(cfg: Config, l: Lease, now: nat): Checkpoint {
    Checkpoint(l.requestId, l.attemptId, l.segment, l.workerId, l.generation, cfg.manifestDigest, cfg.formatVersion,
               "", now, 1, [])
  }

  /** What a worker answers: a checkpoint before the last segment, this output at the last. */
  function Honestly(cfg: Config, l: Lease, now: nat, tokens: seq<nat>, text: string): WorkerResult {
    if l.segment + 1 < |cfg.segmentVramMB|
    then WorkerResult(IdentityOf(l), Envelope(RelayedBy(cfg, l, now)), NoOutput)
    else WorkerResult(IdentityOf(l), NoCheckpoint, Output(tokens, text))
  }

  /** The run's lease is live, and the request is at its segment. */
  predicate Holding(s: Store, r: Run, k: nat, l: Lease, now: nat) {
    && Open(s, r, k, Running)
    && r.id in s.leases && s.leases[r.id] == l && l.requestId == r.id && l.segment == k && now <= l.expiresAt
  }

  lemma HonestMatches(s: Store, r: Run, k: nat, l: Lease, now: nat)
    requires Holding(s, r, k, l, now)
    ensures Match(s, IdentityOf(l), now) == None
  {}

  /** Before the last segment the answer goes to the integrity check, and nothing is written yet. */
  lemma AnswerIsValidated(s: Store, r: Run, k: nat, l: Lease, now: nat, c: Choice, tokens: seq<nat>, text: string)
    requires r.pc.Executing? && Holding(s, r, k, l, now) && k + 1 < r.total
    requires c.settled == Answered(Honestly(r.cfg, l, now, tokens, text))
             && (c.pick.Some? ==> c.pick.value in s.workers)
    ensures var step := Stretch(s, r, now, c);
            && step.ops == []
            && step.out == Validating(r.pc.segment, r.pc.attempt, r.pc.assignment, IdentityOf(l),
                                      RelayedBy(r.cfg, l, now), now)
  {
    HonestMatches(s, r, k, l, now);
  }

  /** The request is completed with exactly this result. */
  predicate Done(s: Store, result: Result) {
    && InStage(s.requests, result.requestId, Completed)
    && result.requestId in s.results && s.results[result.requestId] == result
  }

  /** At the last segment the answer is stored as the result. */
  lemma AnswerCompletes(s: Store, r: Run, k: nat, l: Lease, now: nat, c: Choice, tokens: seq<nat>, text: string)
    requires r.pc.Executing? && Holding(s, r, k, l, now) && k + 1 == r.total
    requires c.settled == Answered(Honestly(r.cfg, l, now, tokens, text))
             && (c.pick.Some? ==> c.pick.value in s.workers)
    requires UniqueLeaseIds(s.leases)
    ensures Done(Replay(s, Stretch(s, r, now, c).ops), Result(r.id, tokens, text, r.total))
  {
    hide Replay, AcceptEntry, UniqueLeaseIds;
    FinalAnswersAreStored(r.cfg, s, c.settled.result, now, c.listed);
  }

  /** An intact checkpoint is stored for its owner, who gives the lease back. */
  lemma CheckIsPassed(s: Store, r: Run, k: nat, l: Lease, now: nat, c: Choice)
    requires r.pc.Validating? && r.pc.identity == IdentityOf(l) && r.pc.checkpoint == RelayedBy(r.cfg, l, now)
    requires r.pc.entered == now && Holding(s, r, k, l, now) && now + 1 <= MAX_SAFE_INTEGER
    requires c.intact && (c.pick.Some? ==> c.pick.value in s.workers)
    ensures var relayed, step := RelayedBy(r.cfg, l, now), Stretch(s, r, now, c);
            var t := Replay(s, step.ops);
            && step.out == Judged(r.pc.segment, r.pc.attempt, r.pc.assignment, AcceptedCheckpoint(relayed))
            && t == s.(checkpoints := s.checkpoints[(r.id, k) := relayed], leases := t.leases, books := t.books)
  {
    HonestMatches(s, r, k, l, now);
    var relayed := RelayedBy(r.cfg, l, now);
    var put := Checkpoints(PutCheckpoint(relayed));
    var note := Bookkeeping(UpdateAttempt(r.id, l.attemptId, AttemptCompleted, None));
    ReplayTwo(s, put, note);
    var u := Replay(s, Relay(IdentityOf(l), relayed));
    assert u.leases == s.leases && Match(u, IdentityOf(l), now) == None;
    assert Stretch(s, r, now, c).ops == [put, note] + [Leases(DeleteLease(l.leaseId))];
    ReplayAppend(s, [put, note], [Leases(DeleteLease(l.leaseId))]);
    ReplaySingle(u, Leases(DeleteLease(l.leaseId)));
  }

  /** The worker is idle again and the request queued. */
  lemma PassesOn(s: Store, r: Run, k: nat, relayed: Checkpoint, now: nat, c: Choice)
    requires r.pc.Judged? && r.pc.segment == k && r.pc.acceptance == AcceptedCheckpoint(relayed)
    requires var id := r.pc.assignment.identity; id.requestId == r.id && ViewIsCurrent(s, id.workerId, id.generation)
    requires InStage(s.requests, r.id, Running) && (c.pick.Some? ==> c.pick.value in s.workers)
    ensures var step, w := Stretch(s, r, now, c), r.pc.assignment.identity.workerId;
            && step.out == SegmentDone(k, true)
            && Replay(s, step.ops)
               == s.(requests := s.requests[r.id := s.requests[r.id].(stage := Queued)],
                     workers := s.workers[w := s.workers[w].(stage := Idle, currentSegment := None)])
  {
    var id := r.pc.assignment.identity;
    var idle, queue := MarkIdle(s, id.workerId, id.generation), Requests(Transition(r.id, Running, Queued));
    MarkMarks(s, id.workerId, id.generation, Idle, None);
    ReplayAppend(s, idle, [queue]);
    ReplaySingle(Replay(s, idle), queue);
    assert Stretch(s, r, now, c).ops == idle + [queue];
  }

  lemma TailGoesOn(s: Store, r: Run, k: nat, now: nat, c: Choice)
    requires r.pc == SegmentDone(k, true) && InStage(s.requests, r.id, Queued) && r.id !in s.cancellations
    requires c.pick.Some? ==> c.pick.value in s.workers
    ensures var step := Stretch(s, r, now, c);
            var t := Replay(s, step.ops);
            && step.out == AtSegment(k + 1)
            && t == s.(requests := s.requests[r.id := s.requests[r.id].(currentSegment := k + 1)], books := t.books)
  {
    ReplayTwo(s, Requests(SetCurrentSegment(r.id, k + 1)),
              Bookkeeping(PutCursor(Cursor(r.id, k, s.requests[r.id].totalSegments))));
  }

  /** A failure worth retrying puts its worker out of the choice, and the run waits for its next attempt. */
  lemma FailureIsRetried(s: Store, r: Run, k: nat, n: nat, l: Lease, code: ErrorCode, now: nat, c: Choice,
                         spare: WorkerId)
    requires r.pc.Executing? && r.pc.segment == k && r.pc.attempt == n && r.pc.assignment.identity == IdentityOf(l)
    requires Holding(s, r, k, l, now) && c.settled == Threw(code) && WorthRetrying(code) && UniqueLeaseIds(s.leases)
    requires s.requests[r.id].retryCount < r.cfg.maxRetries && (c.pick.Some? ==> c.pick.value in s.workers)
    requires Large(s, r.cfg, spare) && s.workers[spare].stage == Idle && spare != l.workerId && WorkersNamed(s)
    ensures var step, t := Stretch(s, r, now, c), Replay(s, Stretch(s, r, now, c).ops);
            && step.out == Delaying(k, n)
            && Open(t, r, k, RetryWait) && t.checkpoints == s.checkpoints
            && t.requests[r.id].retryCount == s.requests[r.id].retryCount + 1
            && Large(t, r.cfg, spare) && t.workers[spare].stage == Idle && WorkersNamed(t)
  {
    hide Replay, Recover, UniqueLeaseIds, RetryCounted, Large, WorkersNamed, Open;
    OpenIsOpen(s, r, k, Running);
    RecoverLeaves(r.cfg, s, r.pc.assignment, code, r.aborted);
    RetryKeeps(s, r, k, l, code, spare);
  }

  lemma OpenIsOpen(s: Store, r: Run, k: nat, stage: Stage)
    requires Open(s, r, k, stage)
    ensures r.id in s.requests && s.requests[r.id].stage == stage && !r.aborted
  {}

  lemma RetryKeeps(s: Store, r: Run, k: nat, l: Lease, code: ErrorCode, spare: WorkerId)
    requires Open(s, r, k, Running) && l.requestId == r.id
    requires Large(s, r.cfg, spare) && s.workers[spare].stage == Idle && spare != l.workerId && WorkersNamed(s)
    ensures var counted := RetryCounted(s, IdentityOf(l), code);
            && r.id in counted.requests
            && var t := counted.(requests := counted.requests[r.id := counted.requests[r.id].(stage := RetryWait)]);
               && Open(t, r, k, RetryWait) && t.checkpoints == s.checkpoints
               && t.requests[r.id].retryCount == s.requests[r.id].retryCount + 1
               && Large(t, r.cfg, spare) && t.workers[spare].stage == Idle && WorkersNamed(t)
  {
    hide RetryCounted;
    CountingTouches(s, IdentityOf(l), code);
  }

  /** Only this worker may differ, and not in its identifier. */
  predicate TouchesWorker(s: Store, t: Store, w: WorkerId) {
    && t.workers.Keys == s.workers.Keys
    && (forall x :: x in s.workers && x != w ==> t.workers[x] == s.workers[x])
    && (w in s.workers ==> t.workers[w].id == s.workers[w].id)
  }

  lemma MarkTouches(s: Store, w: WorkerId, g: Generation, stage: WorkerStage)
    ensures var t := Marked(s, w, g, stage, None); t == s.(workers := t.workers) && TouchesWorker(s, t, w)
  {}

  lemma TouchesAlike(s: Store, t: Store, u: Store, w: WorkerId)
    requires TouchesWorker(s, t, w) && u.workers == t.workers
    ensures TouchesWorker(s, u, w)
  {}

  lemma TouchesTwice(s: Store, t: Store, u: Store, w: WorkerId)
    requires TouchesWorker(s, t, w) && TouchesWorker(t, u, w)
    ensures TouchesWorker(s, u, w)
  {}

  lemma NotingTouches(s: Store, id: Identity, code: ErrorCode)
    ensures var t := FailureNoted(s, id, code);
            && t == s.(leases := s.leases - {id.requestId}, workers := t.workers, books := t.books)
            && TouchesWorker(s, t, id.workerId)
  {
    hide AttemptOver, Marked, TouchesWorker;
    MarkTouches(s, id.workerId, id.generation, Idle);
    var idle := Marked(s, id.workerId, id.generation, Idle, None);
    var u := Unleased(idle, id.requestId);
    AttemptsOnly(u, id.requestId, id.attemptId, AttemptFailed, Some(code));
    var t := FailureNoted(s, id, code);
    assert t == u.(books := t.books);
    TouchesAlike(s, idle, t, id.workerId);
  }

  /** Counting a retry touches its request's counter, its lease, its worker's stage, and the books. */
  lemma CountingTouches(s: Store, id: Identity, code: ErrorCode)
    requires id.requestId in s.requests
    ensures var t, r := RetryCounted(s, id, code), id.requestId;
            && t == s.(requests := s.requests[r := s.requests[r].(retryCount := s.requests[r].retryCount + 1)],
                       leases := s.leases - {r}, workers := t.workers, books := t.books)
            && TouchesWorker(s, t, id.workerId)
  {
    hide FailureNoted, Marked, TouchesWorker;
    NotingTouches(s, id, code);
    var u := FailureNoted(s, id, code);
    MarkTouches(u, id.workerId, id.generation, Disconnected);
    var v := Marked(u, id.workerId, id.generation, Disconnected, None);
    TouchesTwice(s, u, v, id.workerId);
    TouchesAlike(s, v, RetryCounted(s, id, code), id.workerId);
  }

  // --- The stretches as actions of the system ---

  /** The run's own stretches lead from one state to the other. */
  ghost predicate Reaches(s: State, x: nat, t: State) {
    exists states: seq<State>, actions: seq<Action> ::
      && Leads(states, actions) && states[0] == s && states[|actions|] == t
      && forall i :: 0 <= i < |actions| ==> StepsRun(actions[i], x)
  }

  lemma ReachesItself(s: State, x: nat)
    ensures Reaches(s, x, s)
  {
    assert Leads([s], []);
  }

  lemma ReachesFurther(s: State, x: nat, t: State, a: Action, u: State)
    requires Reaches(s, x, t) && Next(t, a, u) && StepsRun(a, x)
    ensures Reaches(s, x, u)
  {
    hide Next;
    var states: seq<State>, actions: seq<Action> :|
      && Leads(states, actions) && states[0] == s && states[|actions|] == t
      && forall i :: 0 <= i < |actions| ==> StepsRun(actions[i], x);
    var n := |actions|;
    forall i | 0 <= i < n + 1 ensures Next((states + [u])[i], (actions + [a])[i], (states + [u])[i + 1]) {
      if i < n {
        assert Next(states[i], actions[i], states[i + 1]);
      }
    }
    assert Leads(states + [u], actions + [a]);
  }

  /** What a run keeps while it goes on. */
  predicate SameRun(r: Run, q: Run) {
    q.id == r.id && q.cfg == r.cfg && q.total == r.total && q.aborted == r.aborted
  }

  /** One stretch of the run, whatever is answered, and where it leads. */
  lemma GoesOn(first: State, s: State, x: nat, settled: Settlement, intact: bool) returns (c: Choice, t: State)
    requires Reaches(first, x, s) && Inv(s) && x in s.runs && !s.runs[x].run.pc.Finished?
    ensures c.settled == settled && c.intact == intact
    ensures c.pick.Some? ==> c.pick.value in Now(s).store.workers
    ensures PickedFor(Now(s).store, s.runs[x].run, c)
    ensures Reaches(first, x, t) && Inv(t) && t.clock == s.clock
    ensures x in t.runs && SameRun(s.runs[x].run, t.runs[x].run)
    ensures var step := Stretch(Now(s).store, s.runs[x].run, s.clock, c);
            t.runs[x].run.pc == step.out && Now(t).store == Replay(Now(s).store, step.ops)
  {
    hide DoAll, Disciplined, Tidy, RunsOk, Stretch, Lists, Picked, ListedFor, Reaches, PickedFor, Count, Replay,
         SafeAll, Consistent;
    c := UnfinishedRunsCanStep(s, x, settled, intact);
    t := Stepped(s, x, c);
    var a := Whole(StepRun(x, c));
    EventIsSafe(s, StepRun(x, c));
    LogLeads(s, Writes(s, StepRun(x, c)));
    DoAllReplays(Now(s), Writes(s, StepRun(x, c)));
    NextKeepsInv(s, a, t);
    ReachesFurther(first, x, s, a, t);
  }

  /** With a worker waiting, the attempt gets to its execution, holding a lease. */
  lemma AttemptExecutes(first: State, s: State, x: nat, k: nat, n: nat, big: WorkerId) returns (t: State, l: Lease)
    requires Reaches(first, x, s) && Inv(s) && x in s.runs
    requires Waiting(Now(s).store, s.runs[x].run, k, n, s.clock, big)
    ensures Reaches(first, x, t) && Inv(t) && t.clock == s.clock
    ensures x in t.runs && SameRun(s.runs[x].run, t.runs[x].run) && t.runs[x].run.pc.Executing?
    ensures var pc := t.runs[x].run.pc;
            pc.segment == k && pc.attempt == n && pc.assignment.identity == IdentityOf(l)
    ensures Holding(Now(t).store, t.runs[x].run, k, l, s.clock) && Assigned(Now(s).store, Now(t).store, l)
    ensures l.requestId == s.runs[x].run.id && l.workerId in Now(s).store.workers
    ensures Now(s).store.workers[l.workerId].stage == Idle
    ensures l.generation == Now(s).store.workers[l.workerId].generation
  {
    hide DoAll, Inv, Reaches, Replay, Dispatch, Picked;
    var c: Choice;
    c, t := GoesOn(first, s, x, Threw(RuntimeTransient), true);
    l := DispatchAssigns(Now(s).store, s.runs[x].run, k, n, s.clock, big, c);
  }

  /** The run enters its segment, and waits for its first attempt at it. */
  lemma SegmentBegins(s: State, x: nat, k: nat, big: WorkerId) returns (t: State)
    requires Inv(s) && x in s.runs && Ready(Now(s).store, s.runs[x].run, k, s.clock, big)
    ensures Reaches(s, x, t) && Inv(t) && t.clock == s.clock && x in t.runs && SameRun(s.runs[x].run, t.runs[x].run)
    ensures Waiting(Now(t).store, t.runs[x].run, k, 0, t.clock, big) && Now(t).store == Now(s).store
  {
    hide DoAll, Inv, Reaches, Replay, Dispatch, Picked;
    var c: Choice;
    ReachesItself(s, x);
    c, t := GoesOn(s, s, x, Threw(RuntimeTransient), true);
    NothingWritten(Now(s).store);
  }

  /** Before the last segment an attempt gets to the next segment, which is as ready. */
  lemma AttemptPasses(first: State, s: State, x: nat, k: nat, n: nat, big: WorkerId) returns (t: State)
    requires Reaches(first, x, s) && Inv(s) && x in s.runs
    requires Waiting(Now(s).store, s.runs[x].run, k, n, s.clock, big)
    requires k + 1 < s.runs[x].run.total && s.clock + 1 <= MAX_SAFE_INTEGER
    ensures Reaches(first, x, t) && Inv(t) && t.clock == s.clock && x in t.runs && SameRun(s.runs[x].run, t.runs[x].run)
    ensures Ready(Now(t).store, t.runs[x].run, k + 1, t.clock, big)
  {
    hide DoAll, Inv, Reaches, Replay, Stretch, AcceptEntry, AcceptCommit, Continue, SegmentTail;
    var now, cfg := s.clock, s.runs[x].run.cfg;
    var s1, l := AttemptExecutes(first, s, x, k, n, big);
    var answer := Answered(Honestly(cfg, l, now, [], ""));
    var c, s2 := GoesOn(first, s1, x, answer, true);
    AnswerIsValidated(Now(s1).store, s1.runs[x].run, k, l, now, c, [], "");
    NothingWritten(Now(s1).store);
    var s3: State, s4: State;
    c, s3 := GoesOn(first, s2, x, answer, true);
    CheckIsPassed(Now(s2).store, s2.runs[x].run, k, l, now, c);
    c, s4 := GoesOn(first, s3, x, answer, true);
    PassesOn(Now(s3).store, s3.runs[x].run, k, RelayedBy(cfg, l, now), now, c);
    c, t := GoesOn(first, s4, x, answer, true);
    TailGoesOn(Now(s4).store, s4.runs[x].run, k, now, c);
    NextIsReady(Now(s).store, Now(s1).store, Now(s3).store, Now(s4).store, Now(t).store, s.runs[x].run, t.runs[x].run,
                k, n, l, now, big);
  }

  /** Before the last segment the run gets to the next one, which is as ready. */
  lemma SegmentPasses(s: State, x: nat, k: nat, big: WorkerId) returns (t: State)
    requires Inv(s) && x in s.runs && Ready(Now(s).store, s.runs[x].run, k, s.clock, big)
    requires k + 1 < s.runs[x].run.total && s.clock + 1 <= MAX_SAFE_INTEGER
    ensures Reaches(s, x, t) && Inv(t) && t.clock == s.clock && x in t.runs && SameRun(s.runs[x].run, t.runs[x].run)
    ensures Ready(Now(t).store, t.runs[x].run, k + 1, t.clock, big)
  {
    hide DoAll, Inv, Reaches, Ready, Waiting;
    var u := SegmentBegins(s, x, k, big);
    t := AttemptPasses(s, u, x, k, 0, big);
  }

  lemma NextIsReady(s: Store, s1: Store, s3: Store, s4: Store, t: Store, r: Run, q: Run, k: nat, n: nat, l: Lease,
                    now: nat, big: WorkerId)
    requires Waiting(s, r, k, n, now, big) && k + 1 < r.total && now + 1 <= MAX_SAFE_INTEGER
    requires Assigned(s, s1, l) && l.requestId == r.id && l.segment == k
    requires s3 == s1.(checkpoints := s1.checkpoints[(r.id, k) := RelayedBy(r.cfg, l, now)],
                       leases := s3.leases, books := s3.books)
    requires s4 == s3.(requests := s3.requests[r.id := s3.requests[r.id].(stage := Queued)],
                       workers := s3.workers[l.workerId := s3.workers[l.workerId].(stage := Idle,
                           currentSegment := None)])
    requires t == s4.(requests := s4.requests[r.id := s4.requests[r.id].(currentSegment := k + 1)], books := t.books)
    requires SameRun(r, q) && q.pc == AtSegment(k + 1)
    ensures Ready(t, q, k + 1, now, big)
  {}

  /** From any attempt on, the run's own stretches complete its request, with whatever the last worker answers. */
  lemma {:induction false} AttemptCompletes(s: State, x: nat, k: nat, n: nat, big: WorkerId, tokens: seq<nat>,
                                            text: string)
    returns (states: seq<State>, actions: seq<Action>)
    requires Inv(s) && x in s.runs && Waiting(Now(s).store, s.runs[x].run, k, n, s.clock, big)
    requires s.clock + 1 <= MAX_SAFE_INTEGER
    ensures Leads(states, actions) && states[0] == s && forall i :: 0 <= i < |actions| ==> StepsRun(actions[i], x)
    ensures var r := s.runs[x].run; Done(Now(states[|actions|]).store, Result(r.id, tokens, text, r.total))
    decreases s.runs[x].run.total - k, 0
  {
    hide DoAll, Inv, Replay, Stretch, AcceptEntry, Reaches, Ready, Done;
    ReachesItself(s, x);
    if k + 1 < s.runs[x].run.total {
      var t := AttemptPasses(s, s, x, k, n, big);
      states, actions := RunCompletes(t, x, k + 1, big, tokens, text);
      states, actions := After(s, x, t, states, actions);
    } else {
      var t, l := AttemptExecutes(s, s, x, k, n, big);
      var c, u := GoesOn(s, t, x, Answered(Honestly(s.runs[x].run.cfg, l, s.clock, tokens, text)), true);
      LeasesAreUnique(t);
      AnswerCompletes(Now(t).store, t.runs[x].run, k, l, s.clock, c, tokens, text);
      states, actions := After(s, x, u, [u], []);
    }
  }

  /** And from any open segment on. */
  lemma {:induction false} RunCompletes(s: State, x: nat, k: nat, big: WorkerId, tokens: seq<nat>, text: string)
    returns (states: seq<State>, actions: seq<Action>)
    requires Inv(s) && x in s.runs && Ready(Now(s).store, s.runs[x].run, k, s.clock, big)
    requires s.clock + 1 <= MAX_SAFE_INTEGER
    ensures Leads(states, actions) && states[0] == s && forall i :: 0 <= i < |actions| ==> StepsRun(actions[i], x)
    ensures var r := s.runs[x].run; Done(Now(states[|actions|]).store, Result(r.id, tokens, text, r.total))
    decreases s.runs[x].run.total - k, 1
  {
    hide DoAll, Inv, Reaches, Ready, Waiting, Done;
    var t := SegmentBegins(s, x, k, big);
    states, actions := AttemptCompletes(t, x, k, 0, big, tokens, text);
    states, actions := After(s, x, t, states, actions);
  }

  /**
   * A run survives a worker that fails: if the failure is worth retrying, the durable budget
   * lasts and another worker is large enough, the run makes a second attempt, counts the one
   * retry, and completes its request with what the worker answers then.
   */
  lemma RunSurvivesFailure(s: State, x: nat, k: nat, big: WorkerId, spare: WorkerId, code: ErrorCode,
                           tokens: seq<nat>, text: string)
    returns (failed: State, states: seq<State>, actions: seq<Action>)
    requires Inv(s) && x in s.runs && Ready(Now(s).store, s.runs[x].run, k, s.clock, big)
    requires big != spare && Ready(Now(s).store, s.runs[x].run, k, s.clock, spare)
    requires WorthRetrying(code) && s.clock + 1 <= MAX_SAFE_INTEGER
    requires Now(s).store.requests[s.runs[x].run.id].retryCount < s.runs[x].run.cfg.maxRetries
    ensures Reaches(s, x, failed) && x in failed.runs && failed.runs[x].run.pc == AtAttempt(k, 1)
    ensures var r := s.runs[x].run;
            && r.id in Now(failed).store.requests
            && Now(failed).store.requests[r.id].retryCount == Now(s).store.requests[r.id].retryCount + 1
    ensures Leads(states, actions) && states[0] == failed
    ensures forall i :: 0 <= i < |actions| ==> StepsRun(actions[i], x)
    ensures var r := s.runs[x].run; Done(Now(states[|actions|]).store, Result(r.id, tokens, text, r.total))
  {
    hide DoAll, Inv, Reaches, Done, Ready, Leads, StepsRun;
    var other: WorkerId;
    failed, other := FailureIsSurvived(s, x, k, big, spare, code);
    WaitingIsPlaced(Now(failed).store, failed.runs[x].run, k, 1, failed.clock, other);
    states, actions := AttemptCompletes(failed, x, k, 1, other, tokens, text);
  }

  lemma WaitingIsPlaced(s: Store, r: Run, k: nat, n: nat, now: nat, w: WorkerId)
    requires Waiting(s, r, k, n, now, w)
    ensures r.pc == AtAttempt(k, n)
  {}

  /** After the failure the run waits for its second attempt, with the other worker there for it. */
  lemma FailureIsSurvived(s: State, x: nat, k: nat, big: WorkerId, spare: WorkerId, code: ErrorCode)
    returns (failed: State, other: WorkerId)
    requires Inv(s) && x in s.runs && Ready(Now(s).store, s.runs[x].run, k, s.clock, big)
    requires big != spare && Ready(Now(s).store, s.runs[x].run, k, s.clock, spare) && WorthRetrying(code)
    requires Now(s).store.requests[s.runs[x].run.id].retryCount < s.runs[x].run.cfg.maxRetries
    ensures Reaches(s, x, failed) && Inv(failed) && failed.clock == s.clock
    ensures x in failed.runs && SameRun(s.runs[x].run, failed.runs[x].run)
    ensures Waiting(Now(failed).store, failed.runs[x].run, k, 1, failed.clock, other)
    ensures var r := s.runs[x].run;
            && r.id in Now(failed).store.requests
            && Now(failed).store.requests[r.id].retryCount == Now(s).store.requests[r.id].retryCount + 1
  {
    hide DoAll, Inv, Reaches, Replay, Stretch, Ready, Waiting, Holding, Assigned, Large, Open, WorkersNamed;
    var s1 := SegmentBegins(s, x, k, big);
    var s2, l := AttemptExecutes(s, s1, x, k, 0, big);
    other := if l.workerId == spare then big else spare;
    OtherIsSpared(Now(s).store, Now(s2).store, s.runs[x].run, s2.runs[x].run, k, l, s.clock, other);
    var c, s3 := GoesOn(s, s2, x, Threw(code), true);
    LeasesAreUnique(s2);
    FailureIsRetried(Now(s2).store, s2.runs[x].run, k, 0, l, code, s.clock, c, other);
    c, failed := GoesOn(s, s3, x, Threw(code), true);
    DelayPasses(Now(s3).store, s3.runs[x].run, k, 0, s.clock, c);
    RetryIsWaiting(Now(s).store, Now(s2).store, Now(s3).store, s.runs[x].run, s2.runs[x].run, failed.runs[x].run, k, l,
                   s.clock, other);
  }

  /** The worker that did not get the lease is as it was. */
  lemma OtherIsSpared(s: Store, t: Store, r: Run, q: Run, k: nat, l: Lease, now: nat, other: WorkerId)
    requires Ready(s, r, k, now, other) && Assigned(s, t, l) && l.requestId == r.id && other != l.workerId
    requires SameRun(r, q)
    ensures Large(t, q.cfg, other) && t.workers[other].stage == Idle && WorkersNamed(t)
    ensures r.id in s.requests && r.id in t.requests
    ensures t.requests[r.id].retryCount == s.requests[r.id].retryCount
  {}

  lemma RetryIsWaiting(s: Store, t: Store, u: Store, r: Run, held: Run, q: Run, k: nat, l: Lease, now: nat,
                       other: WorkerId)
    requires Ready(s, r, k, now, other) && Assigned(s, t, l)
    requires SameRun(r, held) && SameRun(r, q) && q.pc == AtAttempt(k, 1) && r.cfg.maxRetries >= 1
    requires Open(u, held, k, RetryWait) && u.checkpoints == t.checkpoints
    requires Large(u, held.cfg, other) && u.workers[other].stage == Idle && WorkersNamed(u)
    ensures Waiting(u, q, k, 1, now, other) && r.id in u.requests
  {}

  lemma DelayPasses(s: Store, r: Run, k: nat, n: nat, now: nat, c: Choice)
    requires r.pc == Delaying(k, n) && (c.pick.Some? ==> c.pick.value in s.workers)
    ensures Stretch(s, r, now, c).out == AtAttempt(k, n + 1) && Replay(s, Stretch(s, r, now, c).ops) == s
  {}

  lemma LeasesAreUnique(s: State)
    requires Inv(s)
    ensures UniqueLeaseIds(Now(s).store.leases)
  {
    hide DoAll;
    NowIsConsistent(s);
  }

  /** The run's stretches to a state, and then the ones from there. */
  lemma After(s: State, x: nat, t: State, later: seq<State>, next: seq<Action>)
    returns (states: seq<State>, actions: seq<Action>)
    requires Reaches(s, x, t) && Leads(later, next) && later[0] == t
    requires forall i :: 0 <= i < |next| ==> StepsRun(next[i], x)
    ensures Leads(states, actions) && states[0] == s && states[|actions|] == later[|next|]
    ensures forall i :: 0 <= i < |actions| ==> StepsRun(actions[i], x)
  {
    hide Next;
    states, actions :|
      && Leads(states, actions) && states[0] == s && states[|actions|] == t
      && forall i :: 0 <= i < |actions| ==> StepsRun(actions[i], x);
    var m, all, acts := |actions|, states[..|actions|] + later, actions + next;
    forall i | 0 <= i < |acts| ensures Next(all[i], acts[i], all[i + 1]) {
      if i < m {
        assert Next(states[i], actions[i], states[i + 1]);
      } else {
        assert Next(later[i - m], next[i - m], later[i - m + 1]);
      }
    }
    states, actions := all, acts;
  }

  // --- From submission, and from the start ---

  lemma SubmittedIsReady(cfg: Config, w: World, key: Option<IdempotencyKey>, newId: RequestId, now: nat,
                         deadlineMs: Option<nat>, big: WorkerId)
    requires Consistent(w) && newId !in w.store.requests && |cfg.segmentVramMB| >= 1
    requires Large(w.store, cfg, big) && w.store.workers[big].stage == Idle
    requires Submit(cfg, w.store, key, newId, now, deadlineMs).out.Started?
    ensures Ready(Replay(w.store, Submit(cfg, w.store, key, newId, now, deadlineMs).ops),
                  FreshRun(cfg, newId, 0, |cfg.segmentVramMB|), 0, now, big)
  {
    hide Replay, Submit;
    SubmissionLeaves(cfg, w.store, key, newId, now, deadlineMs);
  }

  /** The state an event leads to. */
  lemma Follows(s: State, e: Event) returns (t: State)
    requires Inv(s) && Enabled(s, e) && !e.Elapse?
    ensures Next(s, Whole(e), t) && Inv(t) && t.clock == s.clock
    ensures t.runs == RunsAfter(s, e) && t.pushed == PushedAfter(s, e)
    ensures Now(t).store == Replay(Now(s).store, Writes(s, e))
  {
    hide DoAll, Disciplined, Tidy, RunsOk, Writes, RunsAfter, PushedAfter, Enabled, Replay, SafeAll, Consistent;
    t := State(s.log + Writes(s, e), RunsAfter(s, e), PushedAfter(s, e), s.clock, s.torn);
    EventIsSafe(s, e);
    LogLeads(s, Writes(s, e));
    DoAllReplays(Now(s), Writes(s, e));
    NextKeepsInv(s, Whole(e), t);
  }

  /** A new request can be completed wherever an idle worker is large enough, with whatever its last worker answers. */
  lemma SubmissionCompletes(s: State, e: Event, big: WorkerId, tokens: seq<nat>, text: string)
    returns (states: seq<State>, actions: seq<Action>)
    requires Inv(s) && Enabled(s, e) && e.SubmitRequest? && s.clock + 1 <= MAX_SAFE_INTEGER
    requires |e.cfg.segmentVramMB| >= 1 && Large(Now(s).store, e.cfg, big) && Now(s).store.workers[big].stage == Idle
    requires e.key.Some? ==> e.key.value !in Now(s).store.books.keys
    ensures Leads(states, actions) && states[0] == s && actions != [] && actions[0] == Whole(e)
    ensures forall i :: 0 < i < |actions| ==> StepsRun(actions[i], e.slot)
    ensures Done(Now(states[|actions|]).store, Result(e.newId, tokens, text, |e.cfg.segmentVramMB|))
  {
    hide DoAll, Inv, Replay, Next, Ready, Consistent, Done, Leads;
    var t := Follows(s, e);
    SoundSoFar(s);
    SubmittedIsReady(e.cfg, Now(s), e.key, e.newId, s.clock, e.deadlineMs, big);
    states, actions := RunCompletes(t, e.slot, 0, big, tokens, text);
    LeadsOn(s, Whole(e), states, actions);
    states, actions := [s] + states, [Whole(e)] + actions;
    assert forall i :: 0 < i < |actions| ==> actions[i] == actions[1..][i - 1];
  }

  /** What a recovery that resumes hands over can be completed wherever an idle worker is large enough. */
  lemma RecoveryCompletes(s: State, e: Event, big: WorkerId, tokens: seq<nat>, text: string)
    returns (states: seq<State>, actions: seq<Action>)
    requires Inv(s) && Enabled(s, e) && e.RecoverRequest? && s.clock + 1 <= MAX_SAFE_INTEGER
    requires e.id in Now(s).store.requests && RecoveryStep(s, e).out.ResumeClaimed?
    requires Large(Now(s).store, e.cfg, big) && Now(s).store.workers[big].stage == Idle
    requires AtItsSegment(Now(s).store, e.id)
    ensures Leads(states, actions) && states[0] == s && actions != [] && actions[0] == Whole(e)
    ensures forall i :: 0 < i < |actions| ==> StepsRun(actions[i], e.slot)
    ensures Done(Now(states[|actions|]).store, Result(e.id, tokens, text, Now(s).store.requests[e.id].totalSegments))
  {
    hide DoAll, Inv, Replay, Next, Ready, Consistent, Done, Leads, AtItsSegment, BeginRecovery;
    var t := Follows(s, e);
    SoundSoFar(s);
    ResumedIsReady(Now(s), e.cfg, e.id, e.owner, s.clock, e.ttlMs, e.found, big);
    states, actions := RunCompletes(t, e.slot, Now(s).store.requests[e.id].currentSegment, big, tokens, text);
    LeadsOn(s, Whole(e), states, actions);
    states, actions := [s] + states, [Whole(e)] + actions;
    assert forall i :: 0 < i < |actions| ==> actions[i] == actions[1..][i - 1];
  }

  /** The request has a segment left, and no checkpoint of that segment or a later one. */
  predicate AtItsSegment(s: Store, id: RequestId) {
    && id in s.requests && s.requests[id].currentSegment < s.requests[id].totalSegments
    && forall x :: x in s.checkpoints && x.0 == id ==> x.1 < s.requests[id].currentSegment
  }

  lemma ResumedIsReady(w: World, cfg: Config, id: RequestId, owner: OwnerId, now: nat, ttlMs: nat,
                       found: seq<Checkpoint>, big: WorkerId)
    requires Consistent(w) && AtItsSegment(w.store, id) && ListsCheckpoints(w.store, id, found)
    requires w.store.requests[id].manifestDigest == cfg.manifestDigest ==>
               w.store.requests[id].totalSegments == |cfg.segmentVramMB|
    requires Large(w.store, cfg, big) && w.store.workers[big].stage == Idle
    requires BeginRecovery(w.store, id, owner, now, ttlMs, cfg.maxRetries, cfg.manifestDigest, found).out.ResumeClaimed?
    ensures var r := w.store.requests[id];
            Ready(Replay(w.store, BeginRecovery(w.store, id, owner, now, ttlMs, cfg.maxRetries, cfg.manifestDigest,
                                                found).ops),
                  FreshRun(cfg, id, r.currentSegment, r.totalSegments), r.currentSegment, now, big)
  {
    hide Replay, BeginRecovery, ListsCheckpoints;
    ConsistentLeasesAreUnique(w);
    RecoveryLeaves(w.store, id, owner, now, ttlMs, cfg.maxRetries, cfg.manifestDigest, found);
  }

  lemma ConsistentLeasesAreUnique(w: World)
    requires Consistent(w)
    ensures UniqueLeaseIds(w.store.leases)
  {}

  lemma SoundSoFar(s: State)
    requires Inv(s)
    ensures Consistent(Now(s))
  {
    hide DoAll;
    NowIsConsistent(s);
  }

  lemma {:induction false} LargestOf(costs: seq<nat>, least: nat) returns (m: nat)
    ensures least <= m && forall i :: 0 <= i < |costs| ==> costs[i] <= m
  {
    if costs == [] {
      m := least;
    } else {
      m := LargestOf(costs[1..], least);
      assert forall i :: 1 <= i < |costs| ==> costs[i] == costs[1..][i - 1];
      m := if m < costs[0] then costs[0] else m;
    }
  }

  /**
   * For every manifest of at least one segment and every answer, some behaviour registers
   * a worker and completes a request with that answer as its result.
   */
  lemma RequestsCanComplete(cfg: Config, newId: RequestId, tokens: seq<nat>, text: string)
    returns (states: seq<State>, actions: seq<Action>)
    requires |cfg.segmentVramMB| >= 1
    ensures Behaviour(states, actions)
    ensures Done(Now(states[|actions|]).store, Result(newId, tokens, text, |cfg.segmentVramMB|))
  {
    hide Replay, Next, Inv, Done, Leads;
    var vram := LargestOf(cfg.segmentVramMB, cfg.minimumVramMB);
    var join := Event.RegisterWorker(0, cfg, "w", 0, vram, "c", "g", []);
    StartHolds();
    var s := Follows(Start, join);
    ReplaySingle(Empty, Workers(PutWorker(Worker("w", "g", "c", 0, vram, Idle, 0, None))));
    var ask := Event.SubmitRequest(0, 0, cfg, None, newId, None);
    states, actions := SubmissionCompletes(s, ask, "w", tokens, text);
    LeadsOn(Start, Whole(join), states, actions);
    LeadsIsBehaviour([Start] + states, [Whole(join)] + actions);
    states, actions := [Start] + states, [Whole(join)] + actions;
  }

  lemma LeadsIsBehaviour(states: seq<State>, actions: seq<Action>)
    requires Leads(states, actions) && states[0] == Start
    ensures Behaviour(states, actions)
  {}
}
