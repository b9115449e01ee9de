/**
 * The classes are the system: over a repository whose log is the log of a
 * state the system can be in, one call of a coordinator is one whole event of
 * the system, and leaves the log of the state the event leads to. Any number
 * of coordinators may share the repository.
 */
module CoordinatorRefinement {
  import opened Options
  import opened RequestStages
  import opened DurableTypes
  import opened Store
  import opened Steps
  import opened Discipline
  import opened Boundaries
  import opened Runs
  import opened RunProofs
  import opened CoordinatorSystem
  import opened CoordinatorTheorems
  import opened Listings
  import opened InMemoryRepositories
  import opened LeaseManagers
  import opened WorkerRegistries
  import opened DurableCoordinators
  import opened DurableRecovery
  import opened RecoveryPlan
  import opened Traces

  // --- Runs have the size of their manifest ---

  ghost predicate Sized(s: State) {
    forall x :: x in s.runs ==> s.runs[x].run.total == |s.runs[x].run.cfg.segmentVramMB|
  }

  /** Only a request of the coordinator's own manifest is resumed. */
  lemma ResumesOwnManifest(s: Store, id: RequestId, owner: OwnerId, now: nat, ttlMs: nat, maxRetries: nat,
                           digest: string, cs: seq<Checkpoint>)
    requires BeginRecovery(s, id, owner, now, ttlMs, maxRetries, digest, cs).out.ResumeClaimed?
    ensures id in s.requests && s.requests[id].manifestDigest == digest
  {
    hide Reclaim, Terminalize, UsablePredecessor, LeaseBelongs, FindSegment;
  }

  lemma EventKeepsSized(s: State, e: Event)
    requires Sized(s) && Enabled(s, e)
    ensures forall x :: x in RunsAfter(s, e) ==>
              RunsAfter(s, e)[x].run.total == |RunsAfter(s, e)[x].run.cfg.segmentVramMB|
  {
    hide DoAll, Submit, Stretch, BeginRecovery, CancelRequest, Count, Lists, ListsCheckpoints, ListedFor, PickedFor;
    if e.RecoverRequest? && RecoveryStep(s, e).out.ResumeClaimed? {
      ResumesOwnManifest(Now(s).store, e.id, e.owner, s.clock, e.ttlMs, e.cfg.maxRetries, e.cfg.manifestDigest,
                         e.found);
    }
  }

  // --- One event over a repository ---

  /** The repository holds what the state's log has written. */
  ghost predicate Mirrors(repo: InMemoryRepository, s: State)
    reads repo
  {
    repo.Valid() && repo.log == s.log && Inv(s) && Sized(s)
  }

  /** A coordinator is put together over its repository. */
  ghost predicate Wired(c: DurableCoordinator)
    reads c.registry
  {
    c.leases.store == c.repo && c.registry.store == c.repo && c.registry.Valid()
  }

  /** The state a whole event leads to. */
  ghost function Then(s: State, e: Event): State
    requires Enabled(s, e)
  {
    State(s.log + Writes(s, e), RunsAfter(s, e), PushedAfter(s, e), s.clock + (if e.Elapse? then e.ms else 0), s.torn)
  }

  /** The event could happen, and has happened to the repository. */
  ghost predicate Took(repo: InMemoryRepository, s: State, e: Event)
    reads repo
  {
    Enabled(s, e) && Next(s, Whole(e), Then(s, e)) && Mirrors(repo, Then(s, e))
  }

  lemma ModelIsNow(repo: InMemoryRepository, s: State)
    requires repo.Valid() && repo.log == s.log
    ensures repo.Model() == Now(s).store
  {
    Accounted(repo);
    DoAllReplays(Origin, s.log);
  }

  lemma OwnedIsUnique(w: World)
    requires WorkersKeyed(w.store) && GenerationsAreOwned(w)
    ensures UniqueWorkers(w.store.workers)
  {}

  /** Over the repository of a reachable state, every coordinator is ready. */
  lemma Ready(c: DurableCoordinator, s: State)
    requires Wired(c) && Mirrors(c.repo, s)
    ensures c.Valid() && c.repo.Model() == Now(s).store && Consistent(Now(s))
  {
    hide InMemoryRepository.Valid, Consistent, DoAll, Disciplined, RunsOk, Tidy, UniqueWorkers, WorkerRegistry.Valid;
    ModelIsNow(c.repo, s);
    NowIsConsistent(s);
    ConsistentKeysWorkers(Now(s));
    OwnedIsUnique(Now(s));
    WorkersOf(c.repo);
  }

  lemma WorkersOf(repo: InMemoryRepository)
    ensures repo.Model().workers == repo.workers && repo.Model().leases == repo.activeLeases
    ensures repo.Model().requests == repo.requestRecords && repo.Model().cancellations == repo.cancellations
  {}

  /** Having written what the event writes, the repository is where the event leads. */
  lemma Arrives(repo: InMemoryRepository, s: State, e: Event)
    requires Inv(s) && Sized(s) && Enabled(s, e)
    requires repo.Valid() && repo.log == s.log + Writes(s, e)
    ensures Took(repo, s, e)
  {
    hide InMemoryRepository.Valid, Inv, Enabled, Writes, RunsAfter, PushedAfter;
    EventKeepsSized(s, e);
    EventKeepsInv(s, e, Then(s, e));
  }

  /** What the stored records promise the handlers. */
  lemma Promises(w: World, lease: LeaseId)
    requires Consistent(w)
    ensures lease !in w.past.issued ==> forall r :: r in w.store.leases ==> w.store.leases[r].leaseId != lease
    ensures forall r :: r in w.store.leases ==> w.store.leases[r].requestId == r
    ensures forall r :: r in w.store.cancellations ==> w.store.cancellations[r].requestId == r
  {}

  lemma NewGeneration(w: World, g: Generation)
    requires Consistent(w) && g !in w.past.registered
    ensures NewTo(w.store.workers, g)
  {}

  // --- Requests ---

  method SubmitRequest(c: DurableCoordinator, key: Option<IdempotencyKey>, newId: RequestId, now: nat,
                       deadlineMs: Option<nat>,
                       ghost node: nat, ghost slot: nat, ghost s: State)
    returns (outcome: SubmitOutcome, ghost e: Event)
    requires Wired(c) && Mirrors(c.repo, s) && now == s.clock
    requires Slot(s, slot) && newId !in c.repo.requestRecords
    modifies c.repo
    ensures e == Event.SubmitRequest(node, slot, c.cfg, key, newId, deadlineMs)
    ensures Wired(c) && Took(c.repo, s, e)
    ensures outcome == Submit(c.cfg, Now(s).store, key, newId, now, deadlineMs).out
  {
    hide InMemoryRepository.Valid, DoAll, Inv, Sized, Submit, RunsAfter, PushedAfter, Next, Took;
    e := Event.SubmitRequest(node, slot, c.cfg, key, newId, deadlineMs);
    Ready(c, s);
    WorkersOf(c.repo);
    outcome := c.SubmitRequest(key, newId, now, deadlineMs);
    Arrives(c.repo, s, e);
  }

  /** The manifest condition is the submitter's: one manifest digest stands for one list of segments. */
  method RecoverRequest(c: DurableCoordinator, id: RequestId, owner: OwnerId, now: nat, ttlMs: nat,
                        ghost node: nat, ghost slot: nat, ghost s: State)
    returns (outcome: RecoveryOutcome, ghost e: Event)
    requires Wired(c) && Mirrors(c.repo, s) && now == s.clock && Slot(s, slot)
    requires forall x :: x in s.runs ==> !Unfinished(s.runs[x], node, id)
    requires id in c.repo.requestRecords && c.repo.requestRecords[id].manifestDigest == c.cfg.manifestDigest ==>
               c.repo.requestRecords[id].totalSegments == |c.cfg.segmentVramMB|
    modifies c.repo
    ensures e.RecoverRequest? && e == Event.RecoverRequest(node, slot, c.cfg, id, owner, ttlMs, e.found)
    ensures Wired(c) && Took(c.repo, s, e)
    ensures outcome == RecoveryStep(s, e).out
  {
    hide InMemoryRepository.Valid, DoAll, Inv, Sized, BeginRecovery, RunsAfter, PushedAfter, Next, Took,
         ListsCheckpoints, Consistent;
    Ready(c, s);
    WorkersOf(c.repo);
    Promises(Now(s), "");
    ghost var found: seq<Checkpoint>;
    outcome, found := BeginDurableRecovery(c.repo, id, owner, now, ttlMs, c.cfg.maxRetries, c.cfg.manifestDigest);
    e := Event.RecoverRequest(node, slot, c.cfg, id, owner, ttlMs, found);
    Arrives(c.repo, s, e);
  }

  method AskCancel(c: DurableCoordinator, id: RequestId, now: nat, inFlight: bool, ghost node: nat, ghost s: State)
    returns (disposition: Disposition, ghost e: Event)
    requires Wired(c) && Mirrors(c.repo, s) && now == s.clock
    requires (exists x :: x in s.runs && Unfinished(s.runs[x], node, id)) ==> inFlight
    modifies c.repo
    ensures e == Event.AskCancel(node, c.cfg, id, inFlight)
    ensures Wired(c) && Took(c.repo, s, e)
    ensures disposition == CancelRequest(c.cfg, Now(s).store, id, now, inFlight).out
  {
    hide InMemoryRepository.Valid, DoAll, Inv, Sized, CancelRequest, RunsAfter, PushedAfter, Next, Took, Consistent;
    e := Event.AskCancel(node, c.cfg, id, inFlight);
    Ready(c, s);
    WorkersOf(c.repo);
    Promises(Now(s), "");
    disposition := c.Cancel(id, now, inFlight);
    Arrives(c.repo, s, e);
  }

  // --- Runs ---

  /** The executor has settled: its result is taken in, or its failure handled. */
  method TakeSettlement(c: DurableCoordinator, r: Run, now: nat, settled: Settlement)
    returns (pc: Pc, ghost listed: seq<LeaseId>)
    requires c.Valid() && c.cfg == r.cfg && r.pc.Executing?
    modifies c.registry, c.repo
    ensures c.Valid()
    ensures forall choice: Choice :: choice.settled == settled && choice.listed == listed && choice.pick == None ==>
              && Wrote(c.repo, Stretch(old(c.repo.Model()), r, now, choice).ops)
              && pc == Stretch(old(c.repo.Model()), r, now, choice).out
              && ListedFor(old(c.repo.Model()), r, choice)
  {
    hide InMemoryRepository.Valid, WorkerRegistry.Valid, UniqueWorkers, AcceptEntry, Recover, Lists;
    listed := [];
    match settled
    case Answered(result) =>
      var entry: Entry;
      entry, listed := c.AcceptResult(result, now);
      pc := EntryPc(entry, r.pc.segment, r.pc.attempt, r.pc.assignment, now);
    case Threw(code) =>
      var turn := c.RecoverFrom(r.pc.assignment, code, r.aborted);
      pc := TurnPc(turn, r.pc.segment, r.pc.attempt);
  }

  /** One stretch of a run, from the control point it waits at to the next. */
  method TakeStretch(c: DurableCoordinator, r: Run, now: nat, attemptId: AttemptId, lease: LeaseId,
                     settled: Settlement, intact: bool) returns (pc: Pc, ghost choice: Choice)
    requires c.Valid() && c.cfg == r.cfg && !r.pc.Finished? && PcInRange(r) && r.total == |r.cfg.segmentVramMB|
    requires forall x :: x in c.repo.activeLeases ==> c.repo.activeLeases[x].leaseId != lease
    requires r.id in c.repo.cancellations ==> c.repo.cancellations[r.id].requestId == r.id
    modifies c.registry, c.repo
    ensures c.Valid()
    ensures choice == Choice(choice.pick, attemptId, lease, settled, intact, choice.listed)
    ensures choice.pick.Some? ==> choice.pick.value in old(c.repo.workers)
    ensures Wrote(c.repo, Stretch(old(c.repo.Model()), r, now, choice).ops)
    ensures pc == Stretch(old(c.repo.Model()), r, now, choice).out
    ensures ListedFor(old(c.repo.Model()), r, choice) && PickedFor(old(c.repo.Model()), r, choice)
  {
    hide InMemoryRepository.Valid, WorkerRegistry.Valid, UniqueWorkers, SegmentHead, SegmentTail, Dispatch,
         AcceptCommit, AcceptEntry,
         Recover, Continue, EndRun, Lists, Picked;
    choice := Choice(None, attemptId, lease, settled, intact, []);
    match r.pc
    case AtSegment(segment) =>
      var turn := c.EnterNextSegment(r.id, segment, r.total, r.aborted);
      pc := LoopPc(turn, AtAttempt(segment, 0));
    case AtAttempt(segment, attempt) =>
      var turn: Turn;
      ghost var pick: Option<WorkerId>;
      turn, pick := c.DispatchAttempt(r.id, segment, attempt, r.aborted, attemptId, lease, now);
      choice := choice.(pick := pick);
      pc := TurnPc(turn, segment, attempt);
    case Executing(_, _, _) =>
      ghost var listed: seq<LeaseId>;
      pc, listed := TakeSettlement(c, r, now, settled);
      choice := choice.(listed := listed);
    case Validating(segment, attempt, a, identity, checkpoint, entered) =>
      var acceptance: Acceptance;
      ghost var listed: seq<LeaseId>;
      acceptance, listed := c.CommitRelay(identity, checkpoint, entered, intact, now);
      choice := choice.(listed := listed);
      pc := Judged(segment, attempt, a, acceptance);
    case Judged(segment, attempt, a, acceptance) =>
      var turn: Turn;
      ghost var listed: seq<LeaseId>;
      turn, listed := c.ContinueAfter(a, acceptance, r.aborted, now);
      choice := choice.(listed := listed);
      pc := TurnPc(turn, segment, attempt);
    case Delaying(segment, attempt) =>
      pc := AtAttempt(segment, attempt + 1);
    case SegmentDone(segment, got) =>
      var turn := c.LeaveSegment(r.id, segment, got);
      pc := LoopPc(turn, AtSegment(segment + 1));
    case Ended(thrown) =>
      c.FinishRun(r.id, thrown, r.kind, now);
      pc := Finished(Lost(r));
    case Finished(_) => assert false;
  }

  /** A run that is waiting goes on, with a lease identifier nobody has used. */
  method StepRun(c: DurableCoordinator, r: Run, now: nat, attemptId: AttemptId, lease: LeaseId, settled: Settlement,
                 intact: bool,
                 ghost x: nat, ghost s: State) returns (pc: Pc, ghost e: Event)
    requires Wired(c) && Mirrors(c.repo, s) && now == s.clock
    requires x in s.runs && s.runs[x].run == r && !r.pc.Finished? && c.cfg == r.cfg
    requires lease !in Now(s).past.issued
    modifies c.registry, c.repo
    ensures e.StepRun? && e.slot == x
    ensures e.choice == Choice(e.choice.pick, attemptId, lease, settled, intact, e.choice.listed)
    ensures Wired(c) && Took(c.repo, s, e)
    ensures x in Then(s, e).runs && Then(s, e).runs[x].run.pc == pc
  {
    hide InMemoryRepository.Valid, WorkerRegistry.Valid, UniqueWorkers, DoAll, Stretch, PushedAfter, Next, Took,
         Consistent, Tidy,
         Disciplined, ListedFor, PickedFor, Count;
    Ready(c, s);
    WorkersOf(c.repo);
    Promises(Now(s), lease);
    assert RunOk(Now(s).store, r);
    ghost var choice: Choice;
    pc, choice := TakeStretch(c, r, now, attemptId, lease, settled, intact);
    e := Event.StepRun(x, choice);
    Arrives(c.repo, s, e);
  }

  // --- Pushed results and failures ---

  method PushResult(c: DurableCoordinator, result: WorkerResult, now: nat, ghost node: nat, ghost slot: nat,
                    ghost s: State)
    returns (entry: Entry, ghost e: Event)
    requires Wired(c) && Mirrors(c.repo, s) && now == s.clock && Slot(s, slot)
    modifies c.registry, c.repo
    ensures e.PushResult? && e == Event.PushResult(node, slot, c.cfg, result, e.listed)
    ensures Wired(c) && Took(c.repo, s, e)
    ensures entry == AcceptEntry(c.cfg, Now(s).store, result, now, e.listed).out
  {
    hide InMemoryRepository.Valid, WorkerRegistry.Valid, DoAll, Inv, Sized, AcceptEntry, RunsAfter, PushedAfter, Next,
         Took, Lists, Consistent;
    Ready(c, s);
    ghost var listed: seq<LeaseId>;
    entry, listed := c.AcceptResult(result, now);
    e := Event.PushResult(node, slot, c.cfg, result, listed);
    Arrives(c.repo, s, e);
  }

  method SettlePush(c: DurableCoordinator, p: Awaiting, intact: bool, now: nat, ghost slot: nat, ghost s: State)
    returns (acceptance: Acceptance, ghost e: Event)
    requires Wired(c) && Mirrors(c.repo, s) && now == s.clock
    requires slot in s.pushed && s.pushed[slot] == p && p.cfg == c.cfg
    modifies c.registry, c.repo
    ensures e.SettlePush? && e == Event.SettlePush(slot, intact, e.listed)
    ensures Wired(c) && Took(c.repo, s, e)
    ensures acceptance == AcceptCommit(c.cfg, Now(s).store, p.identity, p.checkpoint, p.entered, intact, now,
                                       e.listed).out
  {
    hide InMemoryRepository.Valid, WorkerRegistry.Valid, DoAll, Inv, Sized, AcceptCommit, RunsAfter, PushedAfter, Next,
         Took, Lists, Consistent;
    Ready(c, s);
    ghost var listed: seq<LeaseId>;
    acceptance, listed := c.CommitRelay(p.identity, p.checkpoint, p.entered, intact, now);
    e := Event.SettlePush(slot, intact, listed);
    Arrives(c.repo, s, e);
  }

  method ReportFailure(c: DurableCoordinator, identity: Identity, code: ErrorCode, now: nat, ghost node: nat,
                       ghost s: State)
    returns (ghost e: Event)
    requires Wired(c) && Mirrors(c.repo, s) && now == s.clock
    modifies c.registry, c.repo
    ensures e.ReportFailure? && e == Event.ReportFailure(node, identity, code, e.listed)
    ensures Wired(c) && Took(c.repo, s, e)
  {
    hide InMemoryRepository.Valid, WorkerRegistry.Valid, DoAll, Replay, Inv, Sized, WorkerFailure, FailureSettled,
         RunsAfter, PushedAfter, Next,
         Took, Lists, Consistent;
    Ready(c, s);
    ghost var listed := c.HandleWorkerFailure(identity, code, now);
    e := Event.ReportFailure(node, identity, code, listed);
    Arrives(c.repo, s, e);
  }

  // --- Workers ---

  method RegisterWorker(c: DurableCoordinator, worker: WorkerId, tier: nat, vramMB: nat, connection: string,
                        generation: Generation,
                        now: nat, ghost node: nat, ghost s: State) returns (outcome: RegisterOutcome, ghost e: Event)
    requires Wired(c) && Mirrors(c.repo, s) && now == s.clock
    requires generation !in Now(s).past.registered
    modifies c.registry, c.repo
    ensures e.RegisterWorker?
            && e == Event.RegisterWorker(node, c.cfg, worker, tier, vramMB, connection, generation, e.listed)
    ensures Wired(c) && Took(c.repo, s, e)
    ensures outcome == Register(c.cfg, Now(s).store, worker, tier, vramMB, connection, generation, now, e.listed).out
  {
    hide InMemoryRepository.Valid, WorkerRegistry.Valid, DoAll, Inv, Sized, Register, RunsAfter, PushedAfter, Next,
         Took, ListsOwn, Consistent,
         NewTo;
    Ready(c, s);
    WorkersOf(c.repo);
    NewGeneration(Now(s), generation);
    ghost var listed: seq<LeaseId>;
    outcome, listed := c.RegisterWorker(worker, tier, vramMB, connection, generation, now);
    e := Event.RegisterWorker(node, c.cfg, worker, tier, vramMB, connection, generation, listed);
    Arrives(c.repo, s, e);
  }

  method DropWorker(c: DurableCoordinator, worker: WorkerId, now: nat, ghost node: nat, ghost s: State)
    returns (ghost e: Event)
    requires Wired(c) && Mirrors(c.repo, s) && now == s.clock
    modifies c.registry, c.repo
    ensures e.DropWorker? && e == Event.DropWorker(node, worker, e.listed)
    ensures Wired(c) && Took(c.repo, s, e)
  {
    hide InMemoryRepository.Valid, WorkerRegistry.Valid, DoAll, Inv, Sized, RemoveWorker, RunsAfter, PushedAfter, Next,
         Took, ListsOwn, Consistent;
    Ready(c, s);
    ghost var listed := c.DropWorker(worker, now);
    e := Event.DropWorker(node, worker, listed);
    Arrives(c.repo, s, e);
  }

  method Beat(c: DurableCoordinator, worker: WorkerId, generation: Generation, now: nat, ghost node: nat,
              ghost s: State)
    returns (answer: HeartbeatAnswer, ghost e: Event)
    requires Wired(c) && Mirrors(c.repo, s) && now == s.clock
    modifies c.repo
    ensures e == Event.Beat(node, worker, generation)
    ensures Wired(c) && Took(c.repo, s, e)
    ensures answer == Beats <==> ViewIsCurrent(Now(s).store, worker, generation)
  {
    hide InMemoryRepository.Valid, WorkerRegistry.Valid, DoAll, Inv, Sized, Heartbeat, RunsAfter, PushedAfter, Next,
         Took, Consistent;
    e := Event.Beat(node, worker, generation);
    Ready(c, s);
    WorkersOf(c.repo);
    answer := c.registry.BeatFrom(worker, generation, now);
    Arrives(c.repo, s, e);
  }

  method FindSilent(c: DurableCoordinator, worker: WorkerId, timeoutMs: nat, now: nat, ghost node: nat, ghost s: State)
    returns (ghost e: Event)
    requires Wired(c) && Mirrors(c.repo, s) && now == s.clock
    modifies c.repo
    ensures e.FindSilent? && e == Event.FindSilent(node, worker, timeoutMs, e.listed)
    ensures Wired(c) && Took(c.repo, s, e)
  {
    hide InMemoryRepository.Valid, WorkerRegistry.Valid, DoAll, Inv, Sized, TimeOut, RunsAfter, PushedAfter, Next, Took,
         ListsOwn, Consistent;
    Ready(c, s);
    ghost var listed := c.ExpireWorker(worker, timeoutMs, now);
    e := Event.FindSilent(node, worker, timeoutMs, listed);
    Arrives(c.repo, s, e);
  }

  // --- Collecting checkpoints, holding claims ---

  method Collect(c: DurableCoordinator, now: nat, ghost node: nat, ghost s: State)
    returns (expired: seq<Checkpoint>, ghost e: Event)
    requires Wired(c) && Mirrors(c.repo, s) && now == s.clock
    modifies c.repo
    ensures e == Event.Collect(node) && Wired(c) && Took(c.repo, s, e)
  {
    hide InMemoryRepository.Valid, WorkerRegistry.Valid, DoAll, Inv, Sized, Apply, RunsAfter, PushedAfter, Next, Took,
         Consistent;
    e := Event.Collect(node);
    Ready(c, s);
    expired := c.repo.CollectExpiredCheckpoints(now);
    Arrives(c.repo, s, e);
  }

  method RenewClaim(c: DurableCoordinator, id: RequestId, owner: OwnerId, claimedAt: nat, ttlMs: nat, now: nat,
                    ghost node: nat, ghost s: State) returns (answer: ClaimResult, ghost e: Event)
    requires Wired(c) && Mirrors(c.repo, s) && now == s.clock
    modifies c.repo
    ensures e == Event.RenewClaim(node, id, owner, claimedAt, ttlMs) && Wired(c) && Took(c.repo, s, e)
    ensures answer == RefusedByPeer <==>
              !ClaimFires(Now(s).store.books.ownerships, Ownership(id, owner, claimedAt, now + ttlMs), now)
  {
    hide InMemoryRepository.Valid, WorkerRegistry.Valid, DoAll, Inv, Sized, Apply, RunsAfter, PushedAfter, Next, Took,
         Consistent;
    e := Event.RenewClaim(node, id, owner, claimedAt, ttlMs);
    Ready(c, s);
    answer := c.repo.ClaimRecoveryOwnership(Ownership(id, owner, claimedAt, now + ttlMs), now);
    Arrives(c.repo, s, e);
  }

  method LetGo(c: DurableCoordinator, id: RequestId, owner: OwnerId, ghost node: nat, ghost s: State)
    returns (ok: bool, ghost e: Event)
    requires Wired(c) && Mirrors(c.repo, s)
    modifies c.repo
    ensures e == Event.LetGo(node, id, owner) && Wired(c) && Took(c.repo, s, e)
    ensures ok == ReleaseFires(Now(s).store.books.ownerships, id, owner)
  {
    hide InMemoryRepository.Valid, WorkerRegistry.Valid, DoAll, Inv, Sized, Apply, RunsAfter, PushedAfter, Next, Took,
         Consistent;
    e := Event.LetGo(node, id, owner);
    Ready(c, s);
    ok := c.repo.ReleaseRecoveryOwnership(id, owner);
    Arrives(c.repo, s, e);
  }

  // --- From the first call on ---

  method Open(cfg: Config) returns (c: DurableCoordinator)
    ensures fresh(c) && fresh(c.repo) && fresh(c.registry) && c.cfg == cfg
    ensures Wired(c) && Mirrors(c.repo, Start)
  {
    hide InMemoryRepository.Valid, Inv, Sized, Took;
    var repo := new InMemoryRepository();
    WorkersOf(repo);
    c := new DurableCoordinator(cfg, repo);
    StartHolds();
    StartIsSized();
  }

  lemma StartIsSized()
    ensures Sized(Start)
  {}

  /** Another coordinator over the same repository; none of the others is touched. */
  method Join(cfg: Config, repo: InMemoryRepository, ghost s: State) returns (c: DurableCoordinator)
    requires Mirrors(repo, s)
    ensures fresh(c) && fresh(c.registry) && c.repo == repo && c.cfg == cfg && Wired(c)
  {
    hide InMemoryRepository.Valid, Inv, Sized, DoAll, UniqueWorkers, Consistent;
    ModelIsNow(repo, s);
    WorkersOf(repo);
    WorkersAreUnique(s);
    c := new DurableCoordinator(cfg, repo);
  }

  lemma WorkersAreUnique(s: State)
    requires Inv(s)
    ensures UniqueWorkers(Now(s).store.workers)
  {
    hide DoAll, Consistent, UniqueWorkers;
    NowIsConsistent(s);
    ConsistentKeysWorkers(Now(s));
    OwnedIsUnique(Now(s));
  }

  /** The repository is at the end of a behaviour of the system. */
  ghost predicate Lived(repo: InMemoryRepository, states: seq<State>, actions: seq<Action>)
    reads repo
  {
    Behaviour(states, actions) && Mirrors(repo, states[|actions|])
  }

  /** Every call makes the behaviour one whole event longer. */
  lemma LivesOn(repo: InMemoryRepository, states: seq<State>, actions: seq<Action>, e: Event)
    requires Behaviour(states, actions) && Took(repo, states[|actions|], e)
    ensures Lived(repo, states + [Then(states[|actions|], e)], actions + [Whole(e)])
  {
    hide InMemoryRepository.Valid, Next, Enabled, Writes, RunsAfter, PushedAfter, Inv, Sized, Then;
    var n, t := |actions|, Then(states[|actions|], e);
    forall i | 0 <= i < n + 1 ensures Next((states + [t])[i], (actions + [Whole(e)])[i], (states + [t])[i + 1]) {
      if i < n {
        assert Next(states[i], actions[i], states[i + 1]);
      }
    }
  }

  /** So what holds of every behaviour holds of the repository: each result is stored once and for good. */
  lemma RepositoryCompletesOnce(repo: InMemoryRepository, states: seq<State>, actions: seq<Action>, i: nat,
                                id: RequestId)
    requires Lived(repo, states, actions) && i <= |actions|
    ensures id in repo.results <==> id in repo.requestRecords && repo.requestRecords[id].stage == Completed
    ensures id in StoreOf(states[i]).results ==>
              id in repo.results && repo.results[id] == StoreOf(states[i]).results[id]
    ensures id in StoreOf(states[i]).cancellations ==> id !in repo.results
    ensures Untorn(actions) && id in repo.requestRecords && Terminal(repo.requestRecords[id].stage) ==>
              id !in repo.activeLeases
  {
    hide InMemoryRepository.Valid, Behaviour, DoAll, Inv, Sized;
    var n := |actions|;
    LivesInStates(states, actions);
    ModelIsNow(repo, states[n]);
    ExactlyOnceCompletion(states, actions, n, n, id);
    ExactlyOnceCompletion(states, actions, i, n, id);
    if id in StoreOf(states[i]).cancellations {
      CancellationHolds(states, actions, i, n, id);
    }
    assert actions[..n] == actions;
    if Untorn(actions) && id in repo.requestRecords && Terminal(repo.requestRecords[id].stage) {
      ClosedRequestsHoldNothing(states, actions, n, id);
    }
  }

  lemma LivesInStates(states: seq<State>, actions: seq<Action>)
    requires Behaviour(states, actions)
    ensures |states| == |actions| + 1
  {}
}
