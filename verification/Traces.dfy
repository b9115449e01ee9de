/**
 * What every log of disciplined writes shows, wherever it is cut off. A log
 * that a crash tears inside a step is a prefix of an untorn one, so all of
 * this survives torn steps too.
 */
module Traces {
  import opened RequestStages
  import opened DurableTypes
  import opened Store
  import opened Discipline
  import opened Progress

  predicate Disciplined(log: seq<Op>) { SafeAll(Origin, log) }

  /** The world after the first `n` writes of the log. */
  function At(log: seq<Op>, n: nat): World
    requires n <= |log|
  {
    DoAll(Origin, log[..n])
  }

  lemma AtStart(log: seq<Op>)
    ensures At(log, 0) == Origin
  {}

  lemma AtNext(log: seq<Op>, n: nat)
    requires n < |log|
    ensures At(log, n + 1) == Do(At(log, n), log[n])
  {
    assert log[..n + 1] == log[..n] + [log[n]];
    DoAllAppend(Origin, log[..n], [log[n]]);
    var w := At(log, n);
    assert [log[n]][1..] == [];
    assert DoAll(w, [log[n]]) == DoAll(Do(w, log[n]), []);
  }

  lemma EachWriteIsSafe(log: seq<Op>, n: nat)
    requires Disciplined(log) && n < |log|
    ensures Safe(At(log, n), log[n])
  {
    hide Safe, Apply, Note;
    assert log == log[..n] + log[n..];
    SafeAllAppend(Origin, log[..n], log[n..]);
  }

  /** The invariant of the discipline, at every point of the log. */
  lemma AlwaysConsistent(log: seq<Op>, n: nat)
    requires Disciplined(log) && n <= |log|
    ensures Consistent(At(log, n))
  {
    PrefixIsSafe(Origin, log, n);
    OriginIsConsistent();
    DisciplinePreserves(Origin, log[..n]);
  }

  /** Nothing established at one point of the log is taken back at a later one. */
  lemma AlwaysAdvances(log: seq<Op>, m: nat, n: nat)
    requires Disciplined(log) && m <= n <= |log|
    ensures Advances(At(log, m), At(log, n))
  {
    hide Advances, Consistent, Safe;
    AlwaysConsistent(log, m);
    PrefixIsSafe(Origin, log, n);
    assert log[..n] == log[..m] + log[m..n];
    SafeAllAppend(Origin, log[..m], log[m..n]);
    DoAllAppend(Origin, log[..m], log[m..n]);
    RunsAdvance(At(log, m), log[m..n]);
  }

  // --- Exactly-once completion ---

  /** A result is there exactly while the stage is completed. */
  lemma ResultIffCompleted(log: seq<Op>, n: nat, id: RequestId)
    requires Disciplined(log) && n <= |log|
    ensures var s := At(log, n).store;
            id in s.results <==> id in s.requests && s.requests[id].stage == Completed
  {
    AlwaysConsistent(log, n);
  }

  /** A stored result is never replaced or removed, and its stage never left. */
  lemma ResultIsFinal(log: seq<Op>, m: nat, n: nat, id: RequestId)
    requires Disciplined(log) && m <= n <= |log|
    requires id in At(log, m).store.results
    ensures id in At(log, n).store.results
    ensures At(log, n).store.results[id] == At(log, m).store.results[id]
    ensures id in At(log, n).store.requests && At(log, n).store.requests[id].stage == Completed
  {
    AlwaysAdvances(log, m, n);
    ResultIffCompleted(log, n, id);
  }

  lemma TerminalIsFinal(log: seq<Op>, m: nat, n: nat, id: RequestId)
    requires Disciplined(log) && m <= n <= |log|
    requires id in At(log, m).store.requests && Terminal(At(log, m).store.requests[id].stage)
    ensures id in At(log, n).store.requests
    ensures At(log, n).store.requests[id].stage == At(log, m).store.requests[id].stage
  {
    AlwaysAdvances(log, m, n);
  }

  predicate CompletesAt(log: seq<Op>, i: nat, id: RequestId)
    requires i < |log|
  {
    && log[i].Commit? && log[i].id == id
    && CommitFires(At(log, i).store, id, log[i].expected, log[i].result)
  }

  /** However many owners race to commit, only the first commit takes effect. */
  lemma LaterCommitsFail(log: seq<Op>, i: nat, j: nat, id: RequestId)
    requires Disciplined(log) && i < j < |log|
    requires CompletesAt(log, i, id)
    ensures !CompletesAt(log, j, id)
  {
    AtNext(log, i);
    ResultIsFinal(log, i + 1, j, id);
  }

  // --- The stages a request goes through ---

  /** The stages one request has been in, each change once, in order. */
  function Stages(log: seq<Op>, id: RequestId): seq<Stage>
    decreases |log|
  {
    if log == [] then []
    else
      var before := Stages(log[..|log| - 1], id);
      var requests := DoAll(Origin, log).store.requests;
      if id !in requests then before
      else if before != [] && before[|before| - 1] == requests[id].stage then before
      else before + [requests[id].stage]
  }

  /** One write leaves a stage alone or takes it along an edge. */
  lemma StageSteps(w: World, op: Op, id: RequestId)
    requires Safe(w, op)
    ensures var t := Apply(w.store, op);
            && (id in w.store.requests ==> id in t.requests)
            && (id in t.requests ==>
                  if id in w.store.requests
                  then t.requests[id].stage == w.store.requests[id].stage
                       || Edge(w.store.requests[id].stage, t.requests[id].stage)
                  else t.requests[id].stage == Accepted)
  {
    if Moves(w.store, op).Some? {
      MovesAreEdges(w, op);
    } else if !Creates(op) {
      StaysKeepStages(w, op);
    }
  }

  /** Every request's history is a path of the state machine, and ends where the request is now. */
  lemma {:induction false} StagesFormAPath(log: seq<Op>, id: RequestId)
    requires Disciplined(log)
    ensures var requests := DoAll(Origin, log).store.requests;
            && StagePath(Stages(log, id))
            && (Stages(log, id) != [] <==> id in requests)
            && (id in requests ==> Stages(log, id)[|Stages(log, id)| - 1] == requests[id].stage)
    decreases |log|
  {
    if log != [] {
      hide Safe, Apply, Note, StagePath, Edge, SafeAll;
      var n := |log| - 1;
      PrefixIsSafe(Origin, log, n);
      StagesFormAPath(log[..n], id);
      AtNext(log, n);
      assert log[..n + 1] == log;
      EachWriteIsSafe(log, n);
      StageSteps(At(log, n), log[n], id);
      var before := Stages(log[..n], id);
      var requests := DoAll(Origin, log).store.requests;
      if id in requests && (before == [] || before[|before| - 1] != requests[id].stage) {
        PathExtends(before, requests[id].stage);
      }
    } else {
      assert StagePath([]);
    }
  }

  // --- Cancellation ---

  /** Once a cancellation is durable, whoever crashes, no later write completes the request. */
  lemma CancellationPreventsCompletion(log: seq<Op>, m: nat, n: nat, id: RequestId)
    requires Disciplined(log) && m <= n <= |log|
    requires id in At(log, m).store.cancellations
    ensures id in At(log, n).store.cancellations
    ensures id !in At(log, n).store.results
    ensures n < |log| ==> !CompletesAt(log, n, id)
  {
    AlwaysAdvances(log, m, n);
    AlwaysConsistent(log, n);
    if n < |log| {
      EachWriteIsSafe(log, n);
    }
  }

  /** And no checkpoint of it is stored either. */
  lemma CancellationStopsRelays(log: seq<Op>, m: nat, n: nat, c: Checkpoint)
    requires Disciplined(log) && m <= n < |log|
    requires c.requestId in At(log, m).store.cancellations
    ensures log[n] != Checkpoints(PutCheckpoint(c))
  {
    AlwaysAdvances(log, m, n);
    EachWriteIsSafe(log, n);
  }

  /** An acknowledged cancellation: cancelled, holding no lease, and so for good. */
  lemma AcknowledgedIsStopped(log: seq<Op>, m: nat, n: nat, id: RequestId)
    requires Disciplined(log) && m <= n <= |log|
    requires id in At(log, m).store.cancellations && At(log, m).store.cancellations[id].acknowledgedAt.Some?
    ensures var s := At(log, n).store;
            && id in s.requests && s.requests[id].stage == Cancelled
            && id !in s.leases
            && id in s.cancellations && s.cancellations[id] == At(log, m).store.cancellations[id]
  {
    AlwaysAdvances(log, m, n);
    AlwaysConsistent(log, n);
  }

  // --- Leases and generations ---

  /** A reclaimed lease never comes back, so nothing it named is ever accepted again. */
  lemma ReclaimedStaysReclaimed(log: seq<Op>, m: nat, n: nat, lease: LeaseId)
    requires Disciplined(log) && m <= n <= |log|
    requires lease in At(log, m).past.issued && !Active(At(log, m).store, lease)
    ensures !Active(At(log, n).store, lease)
  {
    AlwaysAdvances(log, m, n);
  }

  /** A generation that left the registry never returns, under any worker. */
  lemma RetiredStaysRetired(log: seq<Op>, m: nat, n: nat, g: Generation)
    requires Disciplined(log) && m <= n <= |log|
    requires g in At(log, m).past.registered && !Current(At(log, m).store, g)
    ensures !Current(At(log, n).store, g)
  {
    AlwaysAdvances(log, m, n);
  }

  // --- The chain of custody ---

  predicate IssuesAt(log: seq<Op>, j: nat, l: Lease) {
    j < |log| && log[j] == Leases(PutLease(l))
  }

  /** Write `i` fills the checkpoint slot of segment `k` with this checkpoint. */
  predicate StoresAt(log: seq<Op>, i: nat, id: RequestId, k: nat, c: Checkpoint) {
    && i < |log|
    && log[i] == Checkpoints(PutCheckpoint(c)) && c.requestId == id && c.segment == k
    && (id, k) !in At(log, i).store.checkpoints
  }

  /** The lease for this segment was issued at `j` and is the live one at `i`. */
  predicate HeldFrom(log: seq<Op>, j: nat, i: nat, id: RequestId, k: nat, l: Lease) {
    && j < i <= |log|
    && IssuesAt(log, j, l)
    && l.requestId == id && l.segment == k
    && id in At(log, i).store.leases && At(log, i).store.leases[id] == l
  }

  /** The dispatch at `j` ran from its predecessor's checkpoint. */
  predicate HadInput(log: seq<Op>, j: nat, l: Lease) {
    j < |log| && (l.segment > 0 ==> InputPresent(At(log, j).store, l))
  }

  /** The very checkpoint the dispatch at `j` picked up. */
  function PickedUp(log: seq<Op>, j: nat, l: Lease): Checkpoint
    requires HadInput(log, j, l) && l.segment > 0
  {
    At(log, j).store.checkpoints[(l.requestId, l.segment - 1)]
  }

  /**
   * Before write `end` this checkpoint of segment `k` was stored, under a live
   * lease issued for that segment, whose dispatch picked up an unexpired
   * checkpoint of segment `k - 1` with the same manifest, which was itself
   * stored under custody, and so on down to segment 0.
   */
  ghost predicate Custody(log: seq<Op>, id: RequestId, k: nat, c: Checkpoint, end: nat)
    decreases k
  {
    exists i: nat, j: nat, l: Lease ::
      && i < end
      && StoresAt(log, i, id, k, c)
      && HeldFrom(log, j, i, id, k, l)
      && HadInput(log, j, l)
      && (k > 0 ==> Custody(log, id, k - 1, PickedUp(log, j, l), j))
  }

  lemma {:induction false} LiveLeaseWasIssued(log: seq<Op>, n: nat, id: RequestId) returns (j: nat)
    requires Disciplined(log) && n <= |log|
    requires id in At(log, n).store.leases
    ensures j < n && IssuesAt(log, j, At(log, n).store.leases[id])
  {
    AtStart(log);
    AtNext(log, n - 1);
    var l := At(log, n).store.leases[id];
    if log[n - 1] == Leases(PutLease(l)) {
      j := n - 1;
    } else {
      j := LiveLeaseWasIssued(log, n - 1, id);
    }
  }

  lemma SlotFills(s: Store, op: Op, id: RequestId, k: nat)
    requires (id, k) !in s.checkpoints && (id, k) in Apply(s, op).checkpoints
    ensures op == Checkpoints(PutCheckpoint(Apply(s, op).checkpoints[(id, k)]))
    ensures Apply(s, op).checkpoints[(id, k)].requestId == id && Apply(s, op).checkpoints[(id, k)].segment == k
  {}

  lemma SlotStays(s: Store, op: Op, id: RequestId, k: nat)
    requires (id, k) in s.checkpoints && (id, k) in Apply(s, op).checkpoints
    ensures Apply(s, op).checkpoints[(id, k)] == s.checkpoints[(id, k)]
  {}

  lemma ResultAppears(s: Store, op: Op, id: RequestId)
    requires id in Apply(s, op).results
    ensures id !in s.results ==> op.Commit? && op.id == id && CommitFires(s, id, op.expected, op.result)
                                 && Apply(s, op).results[id] == op.result
    ensures id in s.results ==> Apply(s, op).results[id] == s.results[id]
  {}

  lemma {:induction false} StoredCheckpointWasPut(log: seq<Op>, n: nat, id: RequestId, k: nat) returns (i: nat)
    requires Disciplined(log) && n <= |log|
    requires (id, k) in At(log, n).store.checkpoints
    ensures i < n && StoresAt(log, i, id, k, At(log, n).store.checkpoints[(id, k)])
  {
    hide Apply, Note, SafeAll, DoAll;
    AtStart(log);
    AtNext(log, n - 1);
    if (id, k) in At(log, n - 1).store.checkpoints {
      i := StoredCheckpointWasPut(log, n - 1, id, k);
      SlotStays(At(log, n - 1).store, log[n - 1], id, k);
    } else {
      i := n - 1;
      SlotFills(At(log, i).store, log[i], id, k);
    }
  }

  /** The live lease at any point, and the dispatch that issued it. */
  lemma LiveLeaseHadInput(log: seq<Op>, n: nat, id: RequestId) returns (j: nat, l: Lease)
    requires Disciplined(log) && n <= |log|
    requires id in At(log, n).store.leases
    ensures l == At(log, n).store.leases[id]
    ensures HeldFrom(log, j, n, id, l.segment, l) && HadInput(log, j, l)
    ensures l.segment > 0 ==> (id, l.segment - 1) in At(log, j).store.checkpoints
  {
    l := At(log, n).store.leases[id];
    j := LiveLeaseWasIssued(log, n, id);
    EachWriteIsSafe(log, j);
    AlwaysConsistent(log, n);
  }

  lemma {:induction false} StoredHasCustody(log: seq<Op>, n: nat, id: RequestId, k: nat)
    requires Disciplined(log) && n <= |log|
    requires (id, k) in At(log, n).store.checkpoints
    ensures Custody(log, id, k, At(log, n).store.checkpoints[(id, k)], n)
    decreases k
  {
    hide Apply, Note, SafeAll, DoAll;
    var i := StoredCheckpointWasPut(log, n, id, k);
    EachWriteIsSafe(log, i);
    var j, l := LiveLeaseHadInput(log, i, id);
    if k > 0 {
      StoredHasCustody(log, j, id, k - 1);
    }
    assert HeldFrom(log, j, i, id, k, l);
  }

  /**
   * A request completes only with the whole chain behind it: the commit finds
   * the live lease of the last segment, and every earlier segment was leased,
   * relayed and picked up in order.
   */
  lemma CompletionHasCustody(log: seq<Op>, i: nat, id: RequestId) returns (j: nat, l: Lease)
    requires Disciplined(log) && i < |log|
    requires CompletesAt(log, i, id)
    ensures id in At(log, i).store.requests
    ensures l.segment + 1 == At(log, i).store.requests[id].totalSegments
    ensures HeldFrom(log, j, i, id, l.segment, l) && HadInput(log, j, l)
    ensures l.segment > 0 ==> Custody(log, id, l.segment - 1, PickedUp(log, j, l), j)
  {
    hide Apply, Note, SafeAll, DoAll;
    EachWriteIsSafe(log, i);
    j, l := LiveLeaseHadInput(log, i, id);
    if l.segment > 0 {
      StoredHasCustody(log, j, id, l.segment - 1);
    }
  }

  /** A stored result was committed at some write, which `CompletionHasCustody` explains. */
  lemma {:induction false} ResultWasCommitted(log: seq<Op>, n: nat, id: RequestId) returns (i: nat)
    requires Disciplined(log) && n <= |log|
    requires id in At(log, n).store.results
    ensures i < n && CompletesAt(log, i, id)
    ensures At(log, n).store.results[id] == log[i].result
  {
    hide Apply, Note, SafeAll, DoAll, CommitFires;
    AtStart(log);
    AtNext(log, n - 1);
    ResultAppears(At(log, n - 1).store, log[n - 1], id);
    if id in At(log, n - 1).store.results {
      i := ResultWasCommitted(log, n - 1, id);
    } else {
      i := n - 1;
    }
  }
}
