/**
 * One run of a request by one coordinator, as the control points between its
 * atomic stretches. Everything another coordinator may do happens between
 * two such points.
 */
module Runs {
  import opened Options
  import opened RequestStages
  import opened DurableTypes
  import opened Store
  import opened Steps

  datatype Pc =
    | AtSegment(segment: nat)
    | AtAttempt(segment: nat, attempt: nat)
    | Executing(segment: nat, attempt: nat, assignment: Assignment)
    | Validating(segment: nat, attempt: nat, assignment: Assignment,
                 identity: Identity, checkpoint: Checkpoint, entered: nat)
    | Judged(segment: nat, attempt: nat, assignment: Assignment, acceptance: Acceptance)
    | Delaying(segment: nat, attempt: nat)
    | SegmentDone(segment: nat, got: bool)
    | Ended(thrown: Option<ErrorCode>)
    | Finished(lost: bool)

  /** `appended` and `retried` count what this run has written so far. */
  datatype Run = Run(
    cfg: Config, id: RequestId, start: nat, total: nat, pc: Pc, aborted: bool, kind: AbortKind,
    appended: nat, retried: nat)

  datatype Settlement = Answered(result: WorkerResult) | Threw(code: ErrorCode)

  /** What the environment decides during one stretch. */
  datatype Choice = Choice(
    pick: Option<WorkerId>, attemptId: AttemptId, lease: LeaseId,
    settled: Settlement, intact: bool, listed: seq<LeaseId>)

  predicate Appends(op: Op) { op.Bookkeeping? && op.book.AppendAttempt? }

  predicate CountsRetry(op: Op) { op.Requests? && op.request.SetRetryCount? }

  /** How many of the writes satisfy `p`. */
  function Count(ops: seq<Op>, p: Op -> bool): nat {
    if ops == [] then 0 else (if p(ops[0]) then 1 else 0) + Count(ops[1..], p)
  }

  function LoopPc(turn: LoopTurn, next: Pc): Pc {
    match turn
    case EnterSegment => next
    case LeaveLoop => Ended(None)
    case LoopThrow(code) => Ended(Some(code))
  }

  function TurnPc(turn: Turn, segment: nat, attempt: nat): Pc {
    match turn
    case ReturnNull => SegmentDone(segment, false)
    case ReturnResult => SegmentDone(segment, true)
    case Sleep => Delaying(segment, attempt)
    case Execute(assignment) => Executing(segment, attempt, assignment)
    case Throw(code) => Ended(Some(code))
  }

  function EntryPc(entry: Entry, segment: nat, attempt: nat, a: Assignment, now: nat): Pc {
    match entry
    case Settled(acceptance) => Judged(segment, attempt, a, acceptance)
    case Validate(identity, checkpoint) => Validating(segment, attempt, a, identity, checkpoint, now)
  }

  predicate Lost(r: Run) {
    r.pc.Ended? && r.pc.thrown == Some(UserCancellation) && r.kind == ByOwnershipLoss
  }

  /** The writes of the next stretch and the control point it reaches. */
  function Stretch(s: Store, r: Run, now: nat, c: Choice): Step<Pc>
    requires c.pick.Some? ==> c.pick.value in s.workers
  {
    match r.pc
    case AtSegment(segment) =>
      var step := SegmentHead(s, r.id, segment, r.total, r.aborted);
      Step(step.ops, LoopPc(step.out, AtAttempt(segment, 0)))
    case AtAttempt(segment, attempt) =>
      var step := Dispatch(r.cfg, s, r.id, segment, attempt, r.aborted, c.pick, c.attemptId, c.lease, now);
      Step(step.ops, TurnPc(step.out, segment, attempt))
    case Executing(segment, attempt, a) =>
      (match c.settled
       case Answered(result) =>
         var step := AcceptEntry(r.cfg, s, result, now, c.listed);
         Step(step.ops, EntryPc(step.out, segment, attempt, a, now))
       case Threw(code) =>
         var step := Recover(r.cfg, s, a, code, r.aborted);
         Step(step.ops, TurnPc(step.out, segment, attempt)))
    case Validating(segment, attempt, a, identity, checkpoint, entered) =>
      var step := AcceptCommit(r.cfg, s, identity, checkpoint, entered, c.intact, now, c.listed);
      Step(step.ops, Judged(segment, attempt, a, step.out))
    case Judged(segment, attempt, a, acceptance) =>
      var step := Continue(r.cfg, s, a, acceptance, r.aborted, c.listed);
      Step(step.ops, TurnPc(step.out, segment, attempt))
    case Delaying(segment, attempt) => Step([], AtAttempt(segment, attempt + 1))
    case SegmentDone(segment, got) =>
      var step := SegmentTail(s, r.id, segment, got);
      Step(step.ops, LoopPc(step.out, AtSegment(segment + 1)))
    case Ended(thrown) => Step(EndRun(s, r.id, thrown, r.kind, now), Finished(Lost(r)))
    case Finished(_) => Step([], r.pc)
  }

  function Advance(s: Store, r: Run, now: nat, c: Choice): Step<Run>
    requires c.pick.Some? ==> c.pick.value in s.workers
  {
    var step := Stretch(s, r, now, c);
    Step(step.ops,
         r.(pc := step.out,
            appended := r.appended + Count(step.ops, Appends),
            retried := r.retried + Count(step.ops, CountsRetry)))
  }

  /** The listing of leases the stretch reclaims by, where it reclaims any. */
  ghost predicate ListedFor(s: Store, r: Run, c: Choice) {
    match r.pc
    case Executing(_, _, _) =>
      c.settled.Answered? && c.settled.result.WorkerResult? ==>
        Lists(s, c.settled.result.identity.workerId, c.settled.result.identity.generation, c.listed)
    case Validating(_, _, _, identity, _, _) => Lists(s, identity.workerId, identity.generation, c.listed)
    case Judged(_, _, a, _) => Lists(s, a.identity.workerId, a.identity.generation, c.listed)
    case _ => true
  }

  /** The registry picks for the segment at hand. */
  ghost predicate PickedFor(s: Store, r: Run, c: Choice) {
    match r.pc
    case AtAttempt(segment, _) =>
      segment < |r.cfg.segmentVramMB| ==> Picked(s, r.cfg.segmentVramMB[segment], c.pick)
    case _ => true
  }

  // --- What a run always satisfies ---

  /** The segment a run is at, while it is at one. */
  function Place(pc: Pc): Option<(nat, nat)> {
    match pc
    case AtSegment(_) => None
    case AtAttempt(k, a) => Some((k, a))
    case Executing(k, a, _) => Some((k, a))
    case Validating(k, a, _, _, _, _) => Some((k, a))
    case Judged(k, a, _, _) => Some((k, a))
    case Delaying(k, a) => Some((k, a))
    case SegmentDone(_, _) => None
    case Ended(_) => None
    case Finished(_) => None
  }

  predicate Pending(pc: Pc) { pc.Executing? || pc.Validating? || pc.Judged? }

  /** The attempts a run may have appended by now: one a segment, one a retry. */
  function Allowance(r: Run): int {
    match r.pc
    case AtSegment(k) => k - r.start + r.retried
    case AtAttempt(k, _) => k - r.start + r.retried
    case Delaying(k, _) => k - r.start + r.retried
    case Executing(k, _, _) => k - r.start + r.retried + 1
    case Validating(k, _, _, _, _, _) => k - r.start + r.retried + 1
    case Judged(k, _, _, _) => k - r.start + r.retried + 1
    case SegmentDone(k, _) => k - r.start + r.retried + 1
    case Ended(_) => r.total - r.start + r.retried
    case Finished(_) => r.total - r.start + r.retried
  }

  predicate PcInRange(r: Run) {
    && r.start <= r.total
    && (r.pc.AtSegment? ==> r.start <= r.pc.segment <= r.total)
    && (r.pc.SegmentDone? ==> r.start <= r.pc.segment < r.total)
    && (Place(r.pc).Some? ==> r.start <= Place(r.pc).value.0 < r.total)
    && (Pending(r.pc) ==> r.pc.assignment.identity.requestId == r.id)
    && (Place(r.pc).Some? ==> Place(r.pc).value.1 <= r.cfg.maxRetries + (if r.pc.AtAttempt? then 1 else 0))
  }

  /** A run only works on a submitted request of its own size, inside its budget. */
  predicate RunOk(s: Store, r: Run) {
    && PcInRange(r)
    && r.appended <= Allowance(r)
    && r.retried <= r.cfg.maxRetries
    && r.id in s.requests
    && r.total == s.requests[r.id].totalSegments
    && s.requests[r.id].stage != Accepted
    && r.retried <= s.requests[r.id].retryCount
    && (r.pc.Finished? && !r.pc.lost ==> Terminal(s.requests[r.id].stage))
  }
}
