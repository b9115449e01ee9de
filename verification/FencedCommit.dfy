/**
 * Committing a relayed checkpoint across an await. Whatever ran while the
 * checkpoint was validated, the commit looks at the store as it is now.
 */
module FencedCommit {
  import opened RequestStages
  import opened DurableTypes
  import opened Store
  import opened Steps
  import opened Discipline
  import opened Progress
  import opened Effects
  import opened StepSafety
  import opened Traces

  /** At this instant the identity owns the live lease of a running, uncancelled request. */
  predicate OwnsRunning(s: Store, id: Identity, now: nat) {
    && RunningUncancelled(s, id.requestId)
    && id.requestId in s.leases
    && IdentityOf(s.leases[id.requestId]).(requestId := id.requestId) == id
    && now <= s.leases[id.requestId].expiresAt
  }

  lemma MatchesExactlyTheOwner(s: Store, id: Identity, now: nat)
    ensures Match(s, id, now).None? <==>
              && id.requestId in s.leases
              && IdentityOf(s.leases[id.requestId]).(requestId := id.requestId) == id
              && now <= s.leases[id.requestId].expiresAt
  {}

  /** A conflicting checkpoint already sits in the slot of this segment. */
  predicate Conflicts(s: Store, id: Identity, c: Checkpoint) {
    (id.requestId, id.segment) in s.checkpoints
    && s.checkpoints[(id.requestId, id.segment)].payloadDigest != c.payloadDigest
  }

  /**
   * The checkpoint is accepted exactly when, after the await, its identity
   * still owns the live lease of a running, uncancelled request, the envelope
   * was valid, it has not expired meanwhile, and the slot holds nothing else.
   * In particular the compare-and-delete reclaim at the end never refuses.
   */
  lemma AcceptedExactlyWhenOwned(cfg: Config, s: Store, id: Identity, c: Checkpoint, entered: nat, intact: bool,
                                 now: nat, ids: seq<LeaseId>)
    ensures AcceptCommit(cfg, s, id, c, entered, intact, now, ids).out.AcceptedCheckpoint? <==>
              && OwnsRunning(s, id, Max(entered, now))
              && EnvelopeMatches(cfg, id, c, entered) && intact
              && !Expired(c, Max(entered, now))
              && !Conflicts(s, id, c)
  {
    hide Replay, Apply, Finalize, Isolate;
    ReclaimStillMatches(s, id, c, Max(entered, now));
    MatchesExactlyTheOwner(s, id, Max(entered, now));
  }

  /** A checkpoint write is only ever issued by the owner of a running, uncancelled request. */
  lemma StoresOnlyWhenOwned(cfg: Config, s: Store, id: Identity, c: Checkpoint, entered: nat, intact: bool,
                            now: nat, ids: seq<LeaseId>, d: Checkpoint)
    requires Checkpoints(PutCheckpoint(d)) in AcceptCommit(cfg, s, id, c, entered, intact, now, ids).ops
    ensures d == c && OwnsRunning(s, id, Max(entered, now)) && EnvelopeMatches(cfg, id, c, entered) && intact
  {
    hide Replay, Apply, Finalize, Isolate;
    MatchesExactlyTheOwner(s, id, Max(entered, now));
    ClosingPutsNothing(s, id.requestId);
    IsolateIsHarmless(s, id.workerId, id.generation, ids);
    assert forall op :: op in Isolate(s, id.workerId, id.generation, ids) ==> Harmless(op);
  }

  lemma ClosingPutsNothing(s: Store, id: RequestId)
    ensures forall op :: op in Finalize(s, id, Cancelled, UserCancellation) ==>
              !(op.Checkpoints? && op.checkpoint.PutCheckpoint?)
  {}

  lemma RelayEffect(s: Store, id: Identity, c: Checkpoint)
    ensures var t := Replay(s, Relay(id, c) + [Leases(DeleteLease(id.leaseId))]);
            && t.leases == ApplyLease(s.leases, DeleteLease(id.leaseId))
            && t.checkpoints == ApplyCheckpoint(s.checkpoints, PutCheckpoint(c))
            && t.requests == s.requests && t.cancellations == s.cancellations && t.results == s.results
  {
    var put, patch, give := Relay(id, c)[0], Relay(id, c)[1], Leases(DeleteLease(id.leaseId));
    var s1 := Apply(s, put);
    ReplaySingle(Apply(s1, patch), give);
    ReplayLead(s1, patch, [give]);
    ReplayLead(s, put, [patch] + [give]);
    assert Relay(id, c) + [give] == [put] + ([patch] + [give]);
  }

  /** An accepted checkpoint is in its slot, its lease is gone, and nothing else of the request moved. */
  lemma AcceptedIsStored(cfg: Config, s: Store, id: Identity, c: Checkpoint, entered: nat, intact: bool,
                         now: nat, ids: seq<LeaseId>)
    requires AcceptCommit(cfg, s, id, c, entered, intact, now, ids).out.AcceptedCheckpoint?
    ensures var t := Replay(s, AcceptCommit(cfg, s, id, c, entered, intact, now, ids).ops);
            && (id.requestId, id.segment) in t.checkpoints
            && t.checkpoints[(id.requestId, id.segment)].payloadDigest == c.payloadDigest
            && !Active(t, id.leaseId)
            && t.requests == s.requests && t.cancellations == s.cancellations
  {
    hide Replay, Apply, Finalize, Isolate;
    RelayEffect(s, id, c);
  }

  /** A reclaimed lease identifier never matches again, at whatever time, whoever asks. */
  lemma ReclaimedNeverMatches(log: seq<Op>, m: nat, n: nat, id: Identity, now: nat)
    requires Disciplined(log) && m <= n <= |log|
    requires id.leaseId in At(log, m).past.issued && !Active(At(log, m).store, id.leaseId)
    ensures Match(At(log, n).store, id, now).Some?
  {
    hide Apply, Note, SafeAll, DoAll;
    ReclaimedStaysReclaimed(log, m, n, id.leaseId);
    MatchesExactlyTheOwner(At(log, n).store, id, now);
  }

  /** So once accepted, the same result is refused for ever: a relay is accepted at most once. */
  lemma RelayIsAcceptedOnce(cfg: Config, log: seq<Op>, longer: seq<Op>, id: Identity, c: Checkpoint, entered: nat,
                            intact: bool, now: nat, ids: seq<LeaseId>, later: nat)
    requires var step := AcceptCommit(cfg, Replay(Empty, log), id, c, entered, intact, now, ids);
             step.out.AcceptedCheckpoint? && Disciplined(longer) && log + step.ops <= longer
    ensures Match(Replay(Empty, longer), id, later).Some?
  {
    hide Apply, Note, SafeAll, DoAll, Replay;
    var s := Replay(Empty, log);
    var ops := AcceptCommit(cfg, s, id, c, entered, intact, now, ids).ops;
    var m := |log + ops|;
    AcceptedExactlyWhenOwned(cfg, s, id, c, entered, intact, now, ids);
    AcceptedIsStored(cfg, s, id, c, entered, intact, now, ids);
    assert longer[..m] == log + ops && longer[..|log|] == log && longer[..|longer|] == longer;
    DoAllReplays(Origin, log);
    DoAllReplays(Origin, log + ops);
    DoAllReplays(Origin, longer);
    ReplayAppend(Empty, log, ops);
    AlwaysConsistent(longer, |log|);
    AlwaysAdvances(longer, |log|, m);
    ReclaimedNeverMatches(longer, m, |longer|, id, later);
  }
}
