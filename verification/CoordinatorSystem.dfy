/**
 * Any number of coordinators over one repository. A state is the log of every
 * durable write so far, the runs and pushed results that are waiting at an
 * await, and the clock. An action is one atomic stretch, or a crash: at an
 * await, or torn in the middle of a stretch's writes.
 */
module CoordinatorSystem {
  import opened Options
  import opened RequestStages
  import opened DurableTypes
  import opened Store
  import opened Steps
  import opened Discipline
  import opened Effects
  import opened StepSafety
  import opened Boundaries
  import opened Runs
  import opened RunProofs
  import opened RecoveryHandoff
  import opened RecoveryPlan
  import opened Traces

  datatype Hosted = Hosted(node: nat, run: Run)

  /** A pushed result whose checkpoint is being validated. */
  datatype Awaiting = Awaiting(node: nat, cfg: Config, identity: Identity, checkpoint: Checkpoint, entered: nat)

  datatype State = State(
    log: seq<Op>, runs: map<nat, Hosted>, pushed: map<nat, Awaiting>, clock: nat, torn: bool)

  const Start: State := State([], map[], map[], 0, false)

  function Now(s: State): World { DoAll(Origin, s.log) }

  datatype Event =
    | Elapse(ms: nat)
    | SubmitRequest(node: nat, slot: nat, cfg: Config, key: Option<IdempotencyKey>, newId: RequestId,
                    deadlineMs: Option<nat>)
    | RecoverRequest(node: nat, slot: nat, cfg: Config, id: RequestId, owner: OwnerId, ttlMs: nat,
                     found: seq<Checkpoint>)
    | StepRun(slot: nat, choice: Choice)
    | AbortRun(slot: nat, kind: AbortKind)
    | PushResult(node: nat, slot: nat, cfg: Config, result: WorkerResult, listed: seq<LeaseId>)
    | SettlePush(slot: nat, intact: bool, listed: seq<LeaseId>)
    | ReportFailure(node: nat, identity: Identity, code: ErrorCode, listed: seq<LeaseId>)
    | AskCancel(node: nat, cfg: Config, id: RequestId, inFlight: bool)
    | RegisterWorker(node: nat, cfg: Config, worker: WorkerId, tier: nat, vramMB: nat, connection: string,
                     generation: Generation, listed: seq<LeaseId>)
    | DropWorker(node: nat, worker: WorkerId, listed: seq<LeaseId>)
    | Beat(node: nat, worker: WorkerId, generation: Generation)
    | FindSilent(node: nat, worker: WorkerId, timeoutMs: nat, listed: seq<LeaseId>)
    | Collect(node: nat)
    | RenewClaim(node: nat, id: RequestId, owner: OwnerId, claimedAt: nat, ttlMs: nat)
    | LetGo(node: nat, id: RequestId, owner: OwnerId)

  datatype Action =
    | Whole(event: Event)
    | TornAfter(event: Event, writes: nat)
    | Crash(node: nat)

  predicate Slot(s: State, slot: nat) { slot !in s.runs && slot !in s.pushed }

  predicate Unfinished(h: Hosted, node: nat, id: RequestId) {
    h.node == node && h.run.id == id && !h.run.pc.Finished?
  }

  /** What identifiers are fresh, and what the listings list, when an event happens. */
  ghost predicate Enabled(s: State, e: Event) {
    var w := Now(s);
    match e
    case Elapse(_) => true
    case SubmitRequest(_, slot, _, _, newId, _) => Slot(s, slot) && newId !in w.store.requests
    case RecoverRequest(node, slot, cfg, id, _, _, found) =>
      && Slot(s, slot)
      && (forall x :: x in s.runs ==> !Unfinished(s.runs[x], node, id))
      && ListsCheckpoints(w.store, id, found)
      && (id in w.store.requests && w.store.requests[id].manifestDigest == cfg.manifestDigest ==>
            w.store.requests[id].totalSegments == |cfg.segmentVramMB|)
    case StepRun(slot, choice) =>
      && slot in s.runs && !s.runs[slot].run.pc.Finished?
      && ChoiceOk(w, choice)
      && ListedFor(w.store, s.runs[slot].run, choice)
      && PickedFor(w.store, s.runs[slot].run, choice)
    case AbortRun(slot, _) => slot in s.runs
    case PushResult(_, slot, _, result, listed) =>
      && Slot(s, slot)
      && (result.WorkerResult? ==> Lists(w.store, result.identity.workerId, result.identity.generation, listed))
    case SettlePush(slot, _, listed) =>
      slot in s.pushed && Lists(w.store, s.pushed[slot].identity.workerId, s.pushed[slot].identity.generation, listed)
    case ReportFailure(_, identity, code, listed) =>
      Lists(Replay(w.store, FailureSettled(w.store, identity, code)), identity.workerId, identity.generation, listed)
    case AskCancel(node, _, id, inFlight) =>
      (exists x :: x in s.runs && Unfinished(s.runs[x], node, id)) ==> inFlight
    case RegisterWorker(_, _, worker, _, _, _, generation, listed) =>
      generation !in w.past.registered && ListsOwn(w.store, worker, listed)
    case DropWorker(_, worker, listed) => ListsOwn(w.store, worker, listed)
    case Beat(_, _, _) => true
    case FindSilent(_, worker, _, listed) => ListsOwn(w.store, worker, listed)
    case Collect(_) => true
    case RenewClaim(_, _, _, _, _) => true
    case LetGo(_, _, _) => true
  }

  function RecoveryStep(s: State, e: Event): Step<RecoveryOutcome>
    requires e.RecoverRequest?
  {
    BeginRecovery(Now(s).store, e.id, e.owner, s.clock, e.ttlMs, e.cfg.maxRetries, e.cfg.manifestDigest, e.found)
  }

  /** The durable writes of an event, in order. */
  ghost function Writes(s: State, e: Event): seq<Op>
    requires Enabled(s, e)
  {
    var t := Now(s).store;
    match e
    case Elapse(_) => []
    case SubmitRequest(_, _, cfg, key, newId, deadlineMs) => Submit(cfg, t, key, newId, s.clock, deadlineMs).ops
    case RecoverRequest(_, _, _, _, _, _, _) => RecoveryStep(s, e).ops
    case StepRun(slot, choice) => Advance(t, s.runs[slot].run, s.clock, choice).ops
    case AbortRun(_, _) => []
    case PushResult(_, _, cfg, result, listed) => AcceptEntry(cfg, t, result, s.clock, listed).ops
    case SettlePush(slot, intact, listed) =>
      var p := s.pushed[slot];
      AcceptCommit(p.cfg, t, p.identity, p.checkpoint, p.entered, intact, s.clock, listed).ops
    case ReportFailure(_, identity, code, listed) => WorkerFailure(t, identity, code, s.clock, listed)
    case AskCancel(_, cfg, id, inFlight) => CancelRequest(cfg, t, id, s.clock, inFlight).ops
    case RegisterWorker(_, cfg, worker, tier, vramMB, connection, generation, listed) =>
      Register(cfg, t, worker, tier, vramMB, connection, generation, s.clock, listed).ops
    case DropWorker(_, worker, listed) => RemoveWorker(t, worker, listed)
    case Beat(_, worker, generation) => Heartbeat(t, worker, generation, s.clock)
    case FindSilent(_, worker, timeoutMs, listed) => TimeOut(t, worker, timeoutMs, s.clock, listed)
    case Collect(_) => [Checkpoints(CollectExpired(s.clock))]
    case RenewClaim(_, id, owner, claimedAt, ttlMs) =>
      var o := Ownership(id, owner, claimedAt, s.clock + ttlMs);
      if ClaimFires(t.books.ownerships, o, s.clock) then [Bookkeeping(Claim(o, s.clock))] else []
    case LetGo(_, id, owner) =>
      if ReleaseFires(t.books.ownerships, id, owner) then [Bookkeeping(Release(id, owner))] else []
  }

  function FreshRun(cfg: Config, id: RequestId, start: nat, total: nat): Run {
    Run(cfg, id, start, total, AtSegment(start), false, ByUser, 0, 0)
  }

  /** A later abort renames the kind, except that losing a claim never hides an earlier abort. */
  function AbortedBy(r: Run, kind: AbortKind): Run {
    r.(aborted := true, kind := if kind == ByOwnershipLoss && r.aborted then r.kind else kind)
  }

  function AbortAll(runs: map<nat, Hosted>, node: nat, id: RequestId): map<nat, Hosted> {
    map x | x in runs ::
      if Unfinished(runs[x], node, id) then runs[x].(run := AbortedBy(runs[x].run, ByUser)) else runs[x]
  }

  ghost function RunsAfter(s: State, e: Event): map<nat, Hosted>
    requires Enabled(s, e)
  {
    var t := Now(s).store;
    match e
    case SubmitRequest(node, slot, cfg, key, newId, deadlineMs) =>
      if Submit(cfg, t, key, newId, s.clock, deadlineMs).out.Started?
      then s.runs[slot := Hosted(node, FreshRun(cfg, newId, 0, |cfg.segmentVramMB|))] else s.runs
    case RecoverRequest(node, slot, cfg, id, _, _, _) =>
      if RecoveryStep(s, e).out.ResumeClaimed?
      then s.runs[slot := Hosted(node, FreshRun(cfg, id, t.requests[id].currentSegment, t.requests[id].totalSegments))]
      else s.runs
    case StepRun(slot, choice) =>
      s.runs[slot := s.runs[slot].(run := Advance(t, s.runs[slot].run, s.clock, choice).out)]
    case AbortRun(slot, kind) => s.runs[slot := s.runs[slot].(run := AbortedBy(s.runs[slot].run, kind))]
    case AskCancel(node, cfg, id, inFlight) =>
      if CancelRequest(cfg, t, id, s.clock, inFlight).ops != [] then AbortAll(s.runs, node, id) else s.runs
    case _ => s.runs
  }

  ghost function PushedAfter(s: State, e: Event): map<nat, Awaiting>
    requires Enabled(s, e)
  {
    match e
    case PushResult(node, slot, cfg, result, listed) =>
      (match AcceptEntry(cfg, Now(s).store, result, s.clock, listed).out
       case Validate(identity, checkpoint) => s.pushed[slot := Awaiting(node, cfg, identity, checkpoint, s.clock)]
       case Settled(_) => s.pushed)
    case SettlePush(slot, _, _) => s.pushed - {slot}
    case _ => s.pushed
  }

  function NodeOf(s: State, e: Event): nat {
    match e
    case Elapse(_) => 0
    case StepRun(slot, _) => if slot in s.runs then s.runs[slot].node else 0
    case AbortRun(slot, _) => if slot in s.runs then s.runs[slot].node else 0
    case SettlePush(slot, _, _) => if slot in s.pushed then s.pushed[slot].node else 0
    case _ => e.node
  }

  /** A crash loses what the node held in memory; the log keeps what was written. */
  function Without(s: State, node: nat): State {
    s.(runs := map x | x in s.runs && s.runs[x].node != node :: s.runs[x],
       pushed := map x | x in s.pushed && s.pushed[x].node != node :: s.pushed[x])
  }

  ghost predicate Next(s: State, a: Action, t: State) {
    match a
    case Whole(e) =>
      && Enabled(s, e)
      && t == State(s.log + Writes(s, e), RunsAfter(s, e), PushedAfter(s, e),
                    s.clock + (if e.Elapse? then e.ms else 0), s.torn)
    case TornAfter(e, n) =>
      && Enabled(s, e) && n <= |Writes(s, e)|
      && t == Without(s, NodeOf(s, e)).(log := s.log + Writes(s, e)[..n], torn := true)
    case Crash(node) => t == Without(s, node)
  }

  // --- What every reachable state satisfies ---

  ghost predicate RunsOk(s: State) {
    forall x :: x in s.runs ==> RunOk(Now(s).store, s.runs[x].run)
  }

  ghost predicate Inv(s: State) {
    && Disciplined(s.log)
    && RunsOk(s)
    && (!s.torn ==> Tidy(Now(s).store))
  }

  lemma NowIsConsistent(s: State)
    requires Disciplined(s.log)
    ensures Consistent(Now(s))
  {
    OriginIsConsistent();
    DisciplinePreserves(Origin, s.log);
  }

  lemma EventIsSafe(s: State, e: Event)
    requires Inv(s) && Enabled(s, e)
    ensures SafeAll(Now(s), Writes(s, e))
  {
    hide Apply, Note, SafeAll, DoAll, Replay, Consistent, Tidy, RunOk, Lists, ListedFor, PickedFor,
      Submit, Stretch, AcceptEntry, AcceptCommit, WorkerFailure, CancelRequest, Register,
      RemoveWorker, Heartbeat, TimeOut, BeginRecovery;
    var w := Now(s);
    NowIsConsistent(s);
    ConsistentKeysWorkers(w);
    match e
    case Elapse(_) => HarmlessIsSafe(w, []);
    case SubmitRequest(_, _, cfg, key, newId, deadlineMs) => SubmitIsSafe(cfg, w, key, newId, s.clock, deadlineMs);
    case RecoverRequest(_, _, cfg, id, owner, ttlMs, found) =>
      BeginRecoveryIsSafe(w, id, owner, s.clock, ttlMs, cfg.maxRetries, cfg.manifestDigest, found);
    case StepRun(slot, choice) => StretchIsSafe(w, s.runs[slot].run, s.clock, choice);
    case AbortRun(_, _) => HarmlessIsSafe(w, []);
    case PushResult(_, _, cfg, result, listed) => AcceptEntryIsSafe(cfg, w, result, s.clock, listed);
    case SettlePush(slot, intact, listed) =>
      var p := s.pushed[slot];
      AcceptCommitIsSafe(p.cfg, w, p.identity, p.checkpoint, p.entered, intact, s.clock, listed);
    case ReportFailure(_, identity, code, listed) => WorkerFailureIsSafe(w, identity, code, s.clock, listed);
    case AskCancel(_, cfg, id, inFlight) => CancelRequestIsSafe(cfg, w, id, s.clock, inFlight);
    case RegisterWorker(_, cfg, worker, tier, vramMB, connection, generation, listed) =>
      RegisterIsSafe(cfg, w, worker, tier, vramMB, connection, generation, s.clock, listed);
    case DropWorker(_, worker, listed) => WorkerMessagesAreSafe(w, worker, "", 0, s.clock, listed);
    case Beat(_, worker, generation) => WorkerMessagesAreSafe(w, worker, generation, 0, s.clock, []);
    case FindSilent(_, worker, timeoutMs, listed) => WorkerMessagesAreSafe(w, worker, "", timeoutMs, s.clock, listed);
    case Collect(_) => HarmlessIsSafe(w, Writes(s, e));
    case RenewClaim(_, _, _, _, _) => HarmlessIsSafe(w, Writes(s, e));
    case LetGo(_, _, _) => HarmlessIsSafe(w, Writes(s, e));
  }

  lemma ConsistentKeysWorkers(w: World)
    requires Consistent(w)
    ensures WorkersKeyed(w.store) && GenerationsAreOwned(w)
  {}

  lemma EventKeepsTidy(s: State, e: Event)
    requires Inv(s) && Enabled(s, e) && !s.torn
    ensures Tidy(Replay(Now(s).store, Writes(s, e)))
  {
    hide Apply, Note, SafeAll, DoAll, Replay, Consistent, Tidy, RunOk, Lists,
      Submit, Stretch, AcceptEntry, AcceptCommit, WorkerFailure, CancelRequest, Register,
      RemoveWorker, Heartbeat, TimeOut, BeginRecovery;
    var w := Now(s);
    NowIsConsistent(s);
    ConsistentKeysWorkers(w);
    NothingKeepsTidy(w.store);
    match e
    case Elapse(_) =>
    case SubmitRequest(_, _, cfg, key, newId, deadlineMs) => SubmitKeepsTidy(cfg, w, key, newId, s.clock, deadlineMs);
    case RecoverRequest(_, _, cfg, id, owner, ttlMs, found) =>
      BeginRecoveryKeepsTidy(w, id, owner, s.clock, ttlMs, cfg.maxRetries, cfg.manifestDigest, found);
    case StepRun(slot, choice) => StretchKeepsTidy(w, s.runs[slot].run, s.clock, choice);
    case AbortRun(_, _) =>
    case PushResult(_, _, cfg, result, listed) => AcceptEntryKeepsTidy(cfg, w, result, s.clock, listed);
    case SettlePush(slot, intact, listed) =>
      var p := s.pushed[slot];
      AcceptCommitKeepsTidy(p.cfg, w, p.identity, p.checkpoint, p.entered, intact, s.clock, listed);
    case ReportFailure(_, identity, code, listed) => WorkerFailureKeepsTidy(w, identity, code, s.clock, listed);
    case AskCancel(_, cfg, id, inFlight) => CancelRequestKeepsTidy(cfg, w, id, s.clock, inFlight);
    case RegisterWorker(_, cfg, worker, tier, vramMB, connection, generation, listed) =>
      RegisterKeepsTidy(cfg, w, worker, tier, vramMB, connection, generation, s.clock, listed);
    case DropWorker(_, worker, listed) => WorkerMessagesKeepTidy(w, worker, 0, s.clock, listed);
    case Beat(_, worker, generation) => BeatKeepsTidy(w, worker, generation, s.clock);
    case FindSilent(_, worker, timeoutMs, listed) => WorkerMessagesKeepTidy(w, worker, timeoutMs, s.clock, listed);
    case Collect(_) => HarmlessKeepsTidy(w, Writes(s, e));
    case RenewClaim(_, _, _, _, _) => HarmlessKeepsTidy(w, Writes(s, e));
    case LetGo(_, _, _) => HarmlessKeepsTidy(w, Writes(s, e));
  }

  lemma HarmlessKeepsTidy(w: World, ops: seq<Op>)
    requires Tidy(w.store)
    requires forall i :: 0 <= i < |ops| ==> Harmless(ops[i]) && AlwaysCalm(ops[i])
    ensures Tidy(Replay(w.store, ops))
  {
    HarmlessIsSafe(w, ops);
    CalmRunKeepsTidy(w, ops);
  }

  // --- Runs stay what they are supposed to be ---

  lemma LogLeads(s: State, ops: seq<Op>)
    requires Disciplined(s.log) && SafeAll(Now(s), ops)
    ensures Disciplined(s.log + ops) && DoAll(Origin, s.log + ops) == DoAll(Now(s), ops)
  {
    SafeAllAppend(Origin, s.log, ops);
    DoAllAppend(Origin, s.log, ops);
  }

  lemma AbortKeepsRunOk(t: Store, r: Run, kind: AbortKind)
    requires RunOk(t, r)
    ensures RunOk(t, AbortedBy(r, kind))
  {}

  lemma SubmittedRunIsOk(cfg: Config, s: Store, key: Option<IdempotencyKey>, newId: RequestId, now: nat,
                         deadlineMs: Option<nat>)
    requires newId !in s.requests
    requires Submit(cfg, s, key, newId, now, deadlineMs).out.Started?
    ensures RunOk(Replay(s, Submit(cfg, s, key, newId, now, deadlineMs).ops),
                  FreshRun(cfg, newId, 0, |cfg.segmentVramMB|))
  {
    var bind := if key.Some? then [Bookkeeping(BindKey(key.value, newId))] else [];
    var create := Requests(CreateRequest(NewRequest(cfg, newId, now, deadlineMs)));
    var queue := Requests(Transition(newId, Accepted, Queued));
    var s1 := Replay(s, bind);
    if key.Some? {
      ReplaySingle(s, bind[0]);
    }
    var s2 := Apply(s1, create);
    assert Apply(s2, queue).requests[newId] == NewRequest(cfg, newId, now, deadlineMs).(stage := Queued);
    hide Apply, Replay;
    ReplaySingle(s2, queue);
    ReplayLead(s1, create, [queue]);
    ReplayAppend(s, bind, [create] + [queue]);
    assert Submit(cfg, s, key, newId, now, deadlineMs).ops == bind + ([create] + [queue]);
  }

  lemma ResumedRunIsOk(s: State, e: Event)
    requires Inv(s) && Enabled(s, e) && e.RecoverRequest? && RecoveryStep(s, e).out.ResumeClaimed?
    ensures var t := Now(s).store;
            && e.id in t.requests
            && RunOk(Replay(t, RecoveryStep(s, e).ops),
                     FreshRun(e.cfg, e.id, t.requests[e.id].currentSegment, t.requests[e.id].totalSegments))
  {
    hide BeginRecovery, Apply, Replay, DoAll, ReadyToRun, Disciplined;
    NowIsConsistent(s);
    var w := Now(s);
    assert RequestsKeyed(w.store) && CheckpointsKeyed(w.store) && SegmentsInRange(w.store);
    HandoffIsSound(w.store, e.id, e.owner, s.clock, e.ttlMs, e.cfg.maxRetries, e.cfg.manifestDigest, e.found);
    ResumesKnown(w.store, e.id, e.owner, s.clock, e.ttlMs, e.cfg.maxRetries, e.cfg.manifestDigest, e.found);
  }

  lemma ResumesKnown(s: Store, id: RequestId, owner: OwnerId, now: nat, ttlMs: nat, maxRetries: nat,
                     digest: string, cs: seq<Checkpoint>)
    requires BeginRecovery(s, id, owner, now, ttlMs, maxRetries, digest, cs).out.ResumeClaimed?
    ensures id in s.requests
  {
    hide Decide, Reclaim, Terminalize;
  }

  lemma RunAfterIsOk(s: State, e: Event, x: nat)
    requires Inv(s) && Enabled(s, e) && x in RunsAfter(s, e)
    ensures RunOk(DoAll(Now(s), Writes(s, e)).store, RunsAfter(s, e)[x].run)
  {
    hide Apply, SafeAll, DoAll, Replay, RunOk, Consistent, Tidy, Submit, BeginRecovery, Stretch, Count,
      AcceptEntry, AcceptCommit, WorkerFailure, CancelRequest, Register, RemoveWorker, Heartbeat, TimeOut, Lists,
          ListedFor, PickedFor;
    EventIsSafe(s, e);
    var w, ops := Now(s), Writes(s, e);
    var t := DoAll(w, ops).store;
    DoAllReplays(w, ops);
    NowIsConsistent(s);
    if x in s.runs {
      OthersKeepRunOk(w, s.runs[x].run, ops);
    }
    if e.SubmitRequest? && x == e.slot {
      SubmittedRunIsOk(e.cfg, w.store, e.key, e.newId, s.clock, e.deadlineMs);
    } else if e.RecoverRequest? && x == e.slot {
      ResumedRunIsOk(s, e);
    } else if e.StepRun? && x == e.slot {
      StretchKeepsRunOk(w, s.runs[x].run, s.clock, e.choice);
    } else if e.AbortRun? && x == e.slot {
      AbortKeepsRunOk(t, s.runs[x].run, e.kind);
    } else if e.AskCancel? {
      AbortKeepsRunOk(t, s.runs[x].run, ByUser);
    }
  }

  lemma EventKeepsInv(s: State, e: Event, t: State)
    requires Inv(s) && Next(s, Whole(e), t)
    ensures Inv(t)
  {
    hide Apply, SafeAll, DoAll, Replay, RunOk, Tidy, Writes, RunsAfter, PushedAfter, Enabled;
    EventIsSafe(s, e);
    LogLeads(s, Writes(s, e));
    DoAllReplays(Now(s), Writes(s, e));
    forall x | x in t.runs ensures RunOk(Now(t).store, t.runs[x].run) {
      RunAfterIsOk(s, e, x);
    }
    if !s.torn {
      EventKeepsTidy(s, e);
    }
  }

  lemma TearKeepsInv(s: State, e: Event, n: nat, t: State)
    requires Inv(s) && Next(s, TornAfter(e, n), t)
    ensures Inv(t)
  {
    hide Apply, SafeAll, DoAll, Replay, RunOk, Tidy, Writes, Enabled, NodeOf;
    EventIsSafe(s, e);
    var cut := Writes(s, e)[..n];
    PrefixIsSafe(Now(s), Writes(s, e), n);
    LogLeads(s, cut);
    NowIsConsistent(s);
    forall x | x in t.runs ensures RunOk(Now(t).store, t.runs[x].run) {
      OthersKeepRunOk(Now(s), s.runs[x].run, cut);
    }
  }

  /** Every atomic stretch and every crash, torn or not, keeps the invariant. */
  lemma NextKeepsInv(s: State, a: Action, t: State)
    requires Inv(s) && Next(s, a, t)
    ensures Inv(t)
    ensures s.log <= t.log
  {
    hide Apply, SafeAll, DoAll, Replay, RunOk, Tidy, Writes, RunsAfter, PushedAfter, Enabled, NodeOf;
    match a
    case Whole(e) => EventKeepsInv(s, e, t);
    case TornAfter(e, n) => TearKeepsInv(s, e, n, t);
    case Crash(_) =>
  }

  // --- Whole behaviours ---

  ghost predicate Behaviour(states: seq<State>, actions: seq<Action>) {
    && |states| == |actions| + 1
    && states[0] == Start
    && forall i :: 0 <= i < |actions| ==> Next(states[i], actions[i], states[i + 1])
  }

  lemma StartHolds()
    ensures Inv(Start)
  {}

  lemma {:induction false} BehaviourHolds(states: seq<State>, actions: seq<Action>, i: nat)
    requires Behaviour(states, actions) && i < |states|
    ensures Inv(states[i])
  {
    hide Inv, Next;
    if i == 0 {
      StartHolds();
    } else {
      BehaviourHolds(states, actions, i - 1);
      NextKeepsInv(states[i - 1], actions[i - 1], states[i]);
    }
  }

  /** Logs only grow, so an earlier state is a point of a later state's log. */
  lemma {:induction false} LogsGrow(states: seq<State>, actions: seq<Action>, i: nat, j: nat)
    requires Behaviour(states, actions) && i <= j < |states|
    ensures states[i].log <= states[j].log
    ensures At(states[j].log, |states[i].log|) == Now(states[i])
  {
    hide Inv, Next, DoAll;
    if i < j {
      LogsGrow(states, actions, i, j - 1);
      BehaviourHolds(states, actions, j - 1);
      NextKeepsInv(states[j - 1], actions[j - 1], states[j]);
    }
    assert states[j].log[..|states[i].log|] == states[i].log;
  }
}
