/**
 * What every other stretch leaves behind and answers, told by the records and
 * not by the writes: submission, the loop around the attempts and the end of a
 * run, failure messages, cancellation, and what happens to workers.
 */
module StepOutcomes {
  import opened Options
  import opened RequestStages
  import opened DurableTypes
  import opened Store
  import opened Steps
  import opened Effects
  import opened StoreChanges
  import opened AttemptOutcomes

  // --- Submission ---

  /**
   * Under a bound key the answer is the bound identifier and nothing is written.
   * Otherwise the request is queued as configured, and the key, if there is one,
   * is bound to it.
   */
  lemma SubmissionLeaves(cfg: Config, s: Store, key: Option<IdempotencyKey>, newId: RequestId, now: nat,
                      timeoutMs: Option<nat>)
    ensures var step := Submit(cfg, s, key, newId, now, timeoutMs);
            var t := Replay(s, step.ops);
            if key.Some? && key.value in s.books.keys
            then step == Step([], Existing(s.books.keys[key.value])) && t == s
            else
              && step.out == Started(newId)
              && t == s.(requests := s.requests[newId := Request(newId, Queued, 0, |cfg.segmentVramMB|,
                                                                 cfg.manifestDigest, 0, now, timeoutMs, None)],
                         books := s.books.(keys := if key.Some? then s.books.keys[key.value := newId]
                                                   else s.books.keys))
  {
    if key.Some? && key.value in s.books.keys {
      NothingWritten(s);
    } else {
      var create := Requests(CreateRequest(NewRequest(cfg, newId, now, timeoutMs)));
      var queue := Requests(Transition(newId, Accepted, Queued));
      var bind := if key.Some? then [Bookkeeping(BindKey(key.value, newId))] else [];
      if key.Some? {
        ReplaySingle(s, bind[0]);
      } else {
        NothingWritten(s);
      }
      var s1 := Replay(s, bind);
      ReplayTwo(s1, create, queue);
      ReplayAppend(s, bind, [create, queue]);
      assert Submit(cfg, s, key, newId, now, timeoutMs).ops == bind + [create, queue];
    }
  }

  // --- Between segments, and at the end of a run ---

  /** When a segment is entered, and what ends the loop before it. */
  lemma HeadLeaves(s: Store, id: RequestId, segment: nat, total: nat, aborted: bool)
    requires UniqueLeaseIds(s.leases)
    ensures var step := SegmentHead(s, id, segment, total, aborted);
            var t := Replay(s, step.ops);
            if segment >= total then step.out == LeaveLoop && t == s
            else if aborted then step.out == LoopThrow(UserCancellation) && t == s
            else if Over(s, id) then step.out == LeaveLoop && t == s
            else if id in s.cancellations then
              step.out == LeaveLoop && t == ShutIfOpen(s, id, Cancelled, UserCancellation)
            else step.out == EnterSegment && t == s
  {
    hide Replay, Apply, Finalize, UniqueLeaseIds, ShutIfOpen;
    NothingWritten(s);
    FinalizeShuts(s, id, Cancelled, UserCancellation);
  }

  /** After a segment with a result the next one is entered, with the segment and the cursor moved on. */
  lemma TailLeaves(s: Store, id: RequestId, segment: nat, got: bool)
    requires UniqueLeaseIds(s.leases)
    ensures var step := SegmentTail(s, id, segment, got);
            var t := Replay(s, step.ops);
            if !got || id !in s.requests || s.requests[id].stage == Completed then step.out == LeaveLoop && t == s
            else if s.requests[id].stage == Cancelled || id in s.cancellations then
              step.out == LeaveLoop && t == ShutIfOpen(s, id, Cancelled, UserCancellation)
            else
              var r := s.requests[id];
              && step.out == EnterSegment
              && t == s.(requests := s.requests[id := r.(currentSegment := segment + 1)],
                         books := s.books.(cursors := s.books.cursors[id := Cursor(id, segment, r.totalSegments)]))
  {
    hide Finalize, UniqueLeaseIds, ShutIfOpen;
    NothingWritten(s);
    FinalizeShuts(s, id, Cancelled, UserCancellation);
    if got && id in s.requests {
      ReplayTwo(s, Requests(SetCurrentSegment(id, segment + 1)),
                Bookkeeping(PutCursor(Cursor(id, segment, s.requests[id].totalSegments))));
    }
  }

  /** A cancelled request without a lease has its cancellation acknowledged, once. */
  function Acknowledged(s: Store, id: RequestId, now: nat): Store {
    if id in s.cancellations && s.cancellations[id].acknowledgedAt.None?
       && id in s.requests && s.requests[id].stage == Cancelled && id !in s.leases
    then s.(cancellations := s.cancellations[id := s.cancellations[id].(acknowledgedAt := Some(now))]) else s
  }

  lemma AcknowledgeAcknowledges(s: Store, id: RequestId, now: nat)
    ensures Replay(s, Acknowledge(s, id, now)) == Acknowledged(s, id, now)
  {
    if Acknowledge(s, id, now) != [] {
      ReplaySingle(s, PutCancellation(id, s.cancellations[id].(acknowledgedAt := Some(now))));
    } else {
      NothingWritten(s);
    }
  }

  /**
   * How a run that ended leaves an open request: a run that threw because its
   * deadline passed fails it with that code, one the user aborted cancels it, one
   * that lost its recovery ownership writes nothing, any other exception fails it
   * with its own code, and an end without a result fails it as a runtime fault.
   */
  lemma EndLeaves(s: Store, id: RequestId, thrown: Option<ErrorCode>, kind: AbortKind, now: nat)
    requires UniqueLeaseIds(s.leases)
    ensures var closed :=
              match thrown
              case None => ShutIfOpen(s, id, Failed, RuntimeTransient)
              case Some(code) =>
                if code != UserCancellation then ShutIfOpen(s, id, Failed, code)
                else match kind
                  case ByDeadline => ShutIfOpen(s, id, Failed, DeadlineExceeded)
                  case ByUser => ShutIfOpen(s, id, Cancelled, UserCancellation)
                  case ByOwnershipLoss => s;
            Replay(s, EndRun(s, id, thrown, kind, now)) == Acknowledged(closed, id, now)
  {
    hide Replay, Apply, Finalize, UniqueLeaseIds, ShutIfOpen, Acknowledge, Acknowledged;
    NothingWritten(s);
    FinalizeShuts(s, id, Failed, if thrown.None? then RuntimeTransient else thrown.value);
    FinalizeShuts(s, id, Failed, DeadlineExceeded);
    FinalizeShuts(s, id, Cancelled, UserCancellation);
    var closing := Closing(s, id, thrown, kind);
    AcknowledgeAcknowledges(Replay(s, closing), id, now);
    ReplayAppend(s, closing, Acknowledge(Replay(s, closing), id, now));
  }

  // --- Failure messages and cancellation ---

  /**
   * What a failure message does: of a cancelled request it closes it; else only the owner of the
   * live lease is heard.
   */
  lemma FailureLeaves(s: Store, id: Identity, code: ErrorCode, now: nat, ids: seq<LeaseId>)
    requires UniqueLeaseIds(s.leases)
    requires Lists(Replay(s, FailureSettled(s, id, code)), id.workerId, id.generation, ids)
    ensures var r := id.requestId;
            var t := Replay(s, WorkerFailure(s, id, code, now, ids));
            if r in s.cancellations then
              t == ShutIfOpen(AttemptOver(s, r, id.attemptId, AttemptCancelled, Some(UserCancellation)), r, Cancelled,
                              UserCancellation)
            else if !Owns(s, id, now) then t == s
            else
              var noted := Unleased(AttemptOver(s, r, id.attemptId, AttemptFailed, Some(code)), r);
              t == if NotTheWorkers(code) then noted else CastOutIfKnown(noted, id.workerId, id.generation)
  {
    hide Replay, Apply, Finalize, UniqueLeaseIds, ShutIfOpen, AttemptOver, Lists, Isolate, CastOutIfKnown,
      FailureSettled, Match, Owns;
    var r := id.requestId;
    NothingWritten(s);
    MismatchIsNamed(s, id, now);
    if r in s.cancellations {
      NotesThenShuts(s, id, AttemptCancelled, Some(UserCancellation), Cancelled, UserCancellation);
    } else if Owns(s, id, now) {
      var settled := FailureSettled(s, id, code);
      FailureSettles(s, id, code);
      var noted := Replay(s, settled);
      if NotTheWorkers(code) {
        assert settled + [] == settled;
      } else {
        IsolateCasts(noted, id.workerId, id.generation, ids);
        ReplayAppend(s, settled, Isolate(noted, id.workerId, id.generation, ids));
      }
    }
  }

  lemma FailureSettles(s: Store, id: Identity, code: ErrorCode)
    requires UniqueLeaseIds(s.leases)
    ensures var t := Replay(s, FailureSettled(s, id, code));
            && t == Unleased(AttemptOver(s, id.requestId, id.attemptId, AttemptFailed, Some(code)), id.requestId)
            && UniqueLeaseIds(t.leases)
  {
    hide Replay, Apply, Reclaim, AttemptOver;
    var note := Bookkeeping(UpdateAttempt(id.requestId, id.attemptId, AttemptFailed, Some(code)));
    ReplayLead(s, note, Reclaim(s, id.requestId));
    UpdateEndsAttempt(s, id.requestId, id.attemptId, AttemptFailed, Some(code));
    AttemptsOnly(s, id.requestId, id.attemptId, AttemptFailed, Some(code));
    var u := AttemptOver(s, id.requestId, id.attemptId, AttemptFailed, Some(code));
    LikeLeases(s, u, id.requestId);
    ReclaimGives(u, id.requestId);
  }

  /** The cancellation is recorded, and the attempt that holds the lease, if any, is closed. */
  function CancelNoted(s: Store, id: RequestId, record: Cancellation): Store {
    var u := s.(cancellations := s.cancellations[id := record]);
    if id in s.leases then AttemptOver(u, id, s.leases[id].attemptId, AttemptCancelled, Some(UserCancellation)) else u
  }

  /** The cancellation record a request has after it was asked to be cancelled; the first one is kept. */
  function CancelRecord(cfg: Config, s: Store, id: RequestId, now: nat): Cancellation {
    if id in s.cancellations then s.cancellations[id] else Cancellation(id, now, cfg.cancelAckDeadlineMs, None)
  }

  /**
   * Which disposition a cancellation is answered with, and what it leaves: an open
   * request is closed as cancelled, whatever its stage, and an idle one is
   * acknowledged at once; a completed or failed one is left as it is.
   */
  lemma CancelLeaves(cfg: Config, s: Store, id: RequestId, now: nat, inFlight: bool)
    requires UniqueLeaseIds(s.leases)
    ensures var step := CancelRequest(cfg, s, id, now, inFlight);
            var t := Replay(s, step.ops);
            if id !in s.requests then step.out == UnknownRequest && t == s
            else if s.requests[id].stage == Completed then step.out == AlreadyCompleted && t == s
            else if s.requests[id].stage == Failed then step.out == AlreadyFailed && t == s
            else
              var record := CancelRecord(cfg, s, id, now);
              var noted := CancelNoted(s, id, record);
              var stopped := if s.requests[id].stage == Cancelled then noted
                             else Shut(noted, id, Cancelled, UserCancellation);
              if id in s.cancellations then step.out == AlreadyCancelled && t == stopped
              else if inFlight || id in s.leases then step.out == PendingStop && t == stopped
              else
                && step.out == CancelledNow
                && t == stopped.(cancellations := s.cancellations[id := record.(acknowledgedAt := Some(now))])
  {
    hide Replay, Apply, Finalize, UniqueLeaseIds, Shut, CancelPrefix, CancelNoted, CancelRecord;
    NothingWritten(s);
    if id in s.requests && s.requests[id].stage != Completed && s.requests[id].stage != Failed {
      var record := CancelRecord(cfg, s, id, now);
      RecordIs(cfg, s, id, now);
      CancelStopsIt(s, id, record);
      var first := CancelPrefix(s, id, record);
      var stopped := first + Finalize(Replay(s, first), id, Cancelled, UserCancellation);
      var seal := PutCancellation(id, record.(acknowledgedAt := Some(now)));
      ReplayAppend(s, stopped, [seal]);
      ReplaySingle(Replay(s, stopped), seal);
      SealsIt(s, id, record, now);
    }
  }

  lemma RecordIs(cfg: Config, s: Store, id: RequestId, now: nat)
    ensures CancelRecord(cfg, s, id, now)
         == if id in s.cancellations then s.cancellations[id]
            else Cancellation(id, now, cfg.cancelAckDeadlineMs, None)
  {}

  function StoppedNow(s: Store, id: RequestId, record: Cancellation): Store
    requires id in s.requests
  {
    var noted := CancelNoted(s, id, record);
    if s.requests[id].stage == Cancelled then noted else Shut(noted, id, Cancelled, UserCancellation)
  }

  lemma SealsIt(s: Store, id: RequestId, record: Cancellation, now: nat)
    requires id in s.requests
    ensures var seal := PutCancellation(id, record.(acknowledgedAt := Some(now)));
            Apply(StoppedNow(s, id, record), seal)
            == StoppedNow(s, id, record).(
                 cancellations := s.cancellations[id := record.(acknowledgedAt := Some(now))])
  {
    hide AttemptOver;
    if id in s.leases {
      AttemptsOnly(s.(cancellations := s.cancellations[id := record]), id, s.leases[id].attemptId, AttemptCancelled,
                   Some(UserCancellation));
    }
    assert s.cancellations[id := record][id := record.(acknowledgedAt := Some(now))]
        == s.cancellations[id := record.(acknowledgedAt := Some(now))];
  }

  lemma CancelStopsIt(s: Store, id: RequestId, record: Cancellation)
    requires UniqueLeaseIds(s.leases)
    requires id in s.requests && s.requests[id].stage != Completed && s.requests[id].stage != Failed
    ensures var first := CancelPrefix(s, id, record);
            Replay(s, first + Finalize(Replay(s, first), id, Cancelled, UserCancellation))
            == StoppedNow(s, id, record)
  {
    hide Replay, Apply, Finalize, UniqueLeaseIds, Shut, CancelPrefix, CancelNoted;
    var first := CancelPrefix(s, id, record);
    PrefixNotes(s, id, record);
    var u := Replay(s, first);
    ReplayAppend(s, first, Finalize(u, id, Cancelled, UserCancellation));
    FinalizeShuts(u, id, Cancelled, UserCancellation);
    if s.requests[id].stage == Accepted {
      ShutEitherWay(CancelNoted(s, id, record), id);
    }
  }

  lemma ShutEitherWay(s: Store, id: RequestId)
    requires id in s.requests
    ensures Shut(s.(requests := s.requests[id := s.requests[id].(stage := Queued)]), id, Cancelled, UserCancellation)
         == Shut(s, id, Cancelled, UserCancellation)
  {}

  lemma PrefixNotes(s: Store, id: RequestId, record: Cancellation)
    requires UniqueLeaseIds(s.leases) && id in s.requests
    ensures var t, noted := Replay(s, CancelPrefix(s, id, record)), CancelNoted(s, id, record);
            && t == (if s.requests[id].stage != Accepted then noted
                     else noted.(requests := s.requests[id := s.requests[id].(stage := Queued)]))
            && noted.requests == s.requests && UniqueLeaseIds(t.leases)
  {
    hide Replay, Apply, AttemptOver, PatchFirst, UniqueLeaseIds;
    var put := PutCancellation(id, record);
    var note := NoteWrites(s, id);
    var queue := if s.requests[id].stage == Accepted then [Requests(Transition(id, Accepted, Queued))] else [];
    var u, v := s.(cancellations := s.cancellations[id := record]), CancelNoted(s, id, record);
    CancellationIsPut(s, id, record);
    NoteNotes(s, u, id, record);
    if queue != [] {
      ReplaySingle(v, queue[0]);
      QueuesAccepted(v, id);
    } else {
      NothingWritten(v);
    }
    ReplayAppend(u, note, queue);
    ReplayLead(s, put, note + queue);
    assert CancelPrefix(s, id, record) == [put] + (note + queue);
  }

  lemma CancellationIsPut(s: Store, id: RequestId, record: Cancellation)
    ensures Apply(s, PutCancellation(id, record)) == s.(cancellations := s.cancellations[id := record])
  {}

  lemma QueuesAccepted(s: Store, id: RequestId)
    requires id in s.requests && s.requests[id].stage == Accepted
    ensures Apply(s, Requests(Transition(id, Accepted, Queued)))
         == s.(requests := s.requests[id := s.requests[id].(stage := Queued)])
  {}

  function NoteWrites(s: Store, id: RequestId): seq<Op> {
    if id !in s.leases then []
    else [Bookkeeping(UpdateAttempt(id, s.leases[id].attemptId, AttemptCancelled, Some(UserCancellation)))]
  }

  lemma NoteNotes(s: Store, u: Store, id: RequestId, record: Cancellation)
    requires u == s.(cancellations := s.cancellations[id := record])
    ensures var v := CancelNoted(s, id, record);
            && Replay(u, NoteWrites(s, id)) == v
            && v.requests == s.requests && v.leases == s.leases
  {
    hide AttemptOver, Apply;
    if id in s.leases {
      ReplaySingle(u, NoteWrites(s, id)[0]);
      UpdateEndsAttempt(u, id, s.leases[id].attemptId, AttemptCancelled, Some(UserCancellation));
      AttemptsOnly(u, id, s.leases[id].attemptId, AttemptCancelled, Some(UserCancellation));
    } else {
      NothingWritten(u);
    }
  }

  // --- Workers ---

  /** What a registration leaves and answers: refresh on the same connection, replace on another, create if unknown. */
  lemma RegisterLeaves(cfg: Config, s: Store, w: WorkerId, tier: nat, vramMB: nat, connection: string,
                          g: Generation, now: nat, ids: seq<LeaseId>)
    requires UniqueLeaseIds(s.leases) && ListsOwn(s, w, ids)
    requires w in s.workers ==> s.workers[w].id == w
    ensures var step := Register(cfg, s, w, tier, vramMB, connection, g, now, ids);
            var t := Replay(s, step.ops);
            var joined := Worker(w, g, connection, tier, vramMB, Idle, now, None);
            if vramMB < cfg.minimumVramMB then step.out == Refused && t == s
            else if w !in s.workers then step.out == Created(g) && t == s.(workers := s.workers[w := joined])
            else
              var was := s.workers[w];
              if was.connectionId == connection then
                && step.out == Updated(was.generation)
                && t == s.(workers := s.workers[w := was.(tier := tier, vramMB := vramMB,
                                                          stage := if was.stage == Revoked then Idle else was.stage)])
              else
                && step.out == Reconnected(was.generation, g)
                && t == CastOut(s, w, was.generation).(workers := s.workers[w := joined])
  {
    hide UniqueLeaseIds, Lists, RevokeWorker;
    NothingWritten(s);
    var created := Workers(PutWorker(Worker(w, g, connection, tier, vramMB, Idle, now, None)));
    if vramMB >= cfg.minimumVramMB {
      if w !in s.workers {
        ReplaySingle(s, created);
      } else if s.workers[w].connectionId == connection {
        ReplaySingle(s, RegistryWrites(s, w, tier, vramMB, connection, g, now)[0]);
      } else {
        ReplacesGeneration(s, w, created.worker.worker, ids);
      }
    }
  }

  lemma ReplacesGeneration(s: Store, w: WorkerId, joined: Worker, ids: seq<LeaseId>)
    requires UniqueLeaseIds(s.leases) && w in s.workers && joined.id == w && Lists(s, w, s.workers[w].generation, ids)
    ensures var g := s.workers[w].generation;
            Replay(s, RevokeWorker(s, w, g) + [Workers(PutWorker(joined))] + DeleteLeases(ids))
            == CastOut(s, w, g).(workers := s.workers[w := joined])
  {
    hide UniqueLeaseIds, Lists, RevokeWorker, Replay, DeleteLeases, CastOut;
    var g, put := s.workers[w].generation, Workers(PutWorker(joined));
    RevokeEffect(s, w, g);
    var t := Replay(s, RevokeWorker(s, w, g));
    ReplayAppend(s, RevokeWorker(s, w, g), [put]);
    ReplaySingle(t, put);
    var u := Apply(t, put);
    ReplayAppend(s, RevokeWorker(s, w, g) + [put], DeleteLeases(ids));
    LeavesOthers(u, s, w, g, ids);
    assert u.workers == s.workers[w := joined];
    CastingTouches(s, w, g);
  }

  lemma CastingTouches(s: Store, w: WorkerId, g: Generation)
    ensures CastOut(s, w, g) == s.(workers := CastOut(s, w, g).workers, leases := CastOut(s, w, g).leases)
  {}

  /** A removed worker is cast out. */
  lemma RemoveLeaves(s: Store, w: WorkerId, ids: seq<LeaseId>)
    requires UniqueLeaseIds(s.leases) && ListsOwn(s, w, ids)
    ensures Replay(s, RemoveWorker(s, w, ids)) == if w in s.workers then CastOut(s, w, s.workers[w].generation) else s
  {
    hide UniqueLeaseIds, Lists, RevokeWorker, Replay, DeleteLeases, CastOut;
    NothingWritten(s);
    if w in s.workers {
      RevokeThenReclaim(s, w, s.workers[w].generation, ids);
    }
  }

  /** A heartbeat of the stored generation is noted, and brings a disconnected worker back; any other does nothing. */
  lemma BeatLeaves(s: Store, w: WorkerId, g: Generation, now: nat)
    ensures Replay(s, Heartbeat(s, w, g, now))
         == if w !in s.workers || s.workers[w].generation != g then s
            else
              var was := s.workers[w];
              s.(workers := s.workers[w := was.(lastHeartbeat := now,
                                                stage := if was.stage == Disconnected then Idle else was.stage)])
  {
    hide Replay;
    NothingWritten(s);
    if w in s.workers && s.workers[w].generation == g {
      var heard, back := Workers(SetHeartbeat(w, g, now)), Workers(SetWorkerStage(w, g, Idle));
      ReplaySingle(s, heard);
      if s.workers[w].stage == Disconnected {
        ReplayTwo(s, heard, back);
        assert [heard] + [back] == [heard, back];
      } else {
        assert [heard] + [] == [heard];
      }
    }
  }

  /** A worker silent for longer than the timeout is out of the choice, and its generation loses its leases. */
  lemma SilenceLeaves(s: Store, w: WorkerId, timeoutMs: nat, now: nat, ids: seq<LeaseId>)
    requires UniqueLeaseIds(s.leases) && ListsOwn(s, w, ids)
    ensures Replay(s, TimeOut(s, w, timeoutMs, now, ids))
         == if w in s.workers && s.workers[w].stage != Revoked && s.workers[w].lastHeartbeat + timeoutMs < now
            then Marked(s, w, s.workers[w].generation, Disconnected, None).(
                 leases := CastOut(s, w, s.workers[w].generation).leases)
            else s
  {
    hide UniqueLeaseIds, Lists, Replay, DeleteLeases, Mark, CastOut;
    NothingWritten(s);
    if w in s.workers && s.workers[w].stage != Revoked && s.workers[w].lastHeartbeat + timeoutMs < now {
      var g := s.workers[w].generation;
      MarkMarks(s, w, g, Disconnected, None);
      var t := Marked(s, w, g, Disconnected, None);
      ReplayAppend(s, MarkDisconnected(s, w, g), DeleteLeases(ids));
      LeavesOthers(t, s, w, g, ids);
    }
  }
}
