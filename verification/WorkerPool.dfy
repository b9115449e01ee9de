/** The pool of browser workers, and which of them a pipeline may pick. */
module WorkerPools {
  import opened Options
  import opened DurableTypes

  datatype PoolStatus = Free | Working | Gone

  datatype PoolWorker = PoolWorker(
    id: WorkerId, tier: nat, vramMB: nat, status: PoolStatus, lastHeartbeat: nat, currentSegment: Option<nat>)

  /** Pool entries sit under their own identifiers. */
  predicate Identified(pool: map<WorkerId, PoolWorker>) { forall w :: w in pool ==> pool[w].id == w }

  /** The collection order of a pool: every worker once. */
  ghost predicate Enumerates(pool: map<WorkerId, PoolWorker>, ids: seq<WorkerId>) {
    && (forall w :: w in pool <==> w in ids)
    && (forall i, j :: 0 <= i < j < |ids| ==> ids[i] != ids[j])
  }

  predicate Usable(w: PoolWorker, requiredVramMB: nat) { w.status.Free? && w.vramMB >= requiredVramMB }

  predicate NoWorse(a: PoolWorker, b: PoolWorker) { a.tier < b.tier || (a.tier == b.tier && a.vramMB >= b.vramMB) }

  /** The pool with one worker's status changed, and nothing for an unknown one. */
  function Marked(pool: map<WorkerId, PoolWorker>, id: WorkerId, status: PoolStatus,
                  current: Option<nat>): map<WorkerId, PoolWorker>
  {
    if id in pool then pool[id := pool[id].(status := status, currentSegment := current)] else pool
  }

  /** A worker an assignment may go to: usable, and none usable is better. */
  ghost predicate Available(pool: map<WorkerId, PoolWorker>, requiredVramMB: nat, best: Option<WorkerId>) {
    match best
    case None => forall w :: w in pool ==> !Usable(pool[w], requiredVramMB)
    case Some(b) =>
      && b in pool && Usable(pool[b], requiredVramMB)
      && forall w :: w in pool && Usable(pool[w], requiredVramMB) ==> NoWorse(pool[b], pool[w])
  }

  class WorkerPool {
    var workers: map<WorkerId, PoolWorker>

    constructor ()
      ensures workers == map[]
    {
      workers := map[];
    }

    method Register(id: WorkerId, tier: nat, vramMB: nat, now: nat)
      requires Identified(workers)
      modifies this
      ensures Identified(workers)
      ensures workers == old(workers)[id := PoolWorker(id, tier, vramMB, Free, now, None)]
    {
      workers := workers[id := PoolWorker(id, tier, vramMB, Free, now, None)];
    }

    /** A heartbeat brings a disconnected worker back, and is refused from an unknown one. */
    method Heartbeat(id: WorkerId, now: nat) returns (known: bool)
      requires Identified(workers)
      modifies this
      ensures Identified(workers) && known == (id in old(workers))
      ensures known ==> workers == old(workers)[id := old(workers)[id].(lastHeartbeat := now,
                          status := if old(workers)[id].status.Gone? then Free else old(workers)[id].status)]
      ensures !known ==> workers == old(workers)
    {
      if id !in workers { return false; }
      workers := workers[id := workers[id].(lastHeartbeat := now, status := if workers[id].status.Gone? then Free
                                            else workers[id].status)];
      return true;
    }

    /** Lowest tier first, then most VRAM; none only if none is usable. */
    method GetAvailableWorker(requiredVramMB: nat) returns (best: Option<WorkerId>)
      ensures Available(workers, requiredVramMB, best)
      ensures match best
              case None => forall w :: w in workers && workers[w].status.Free? ==> workers[w].vramMB < requiredVramMB
              case Some(b) =>
                && b in workers && workers[b].status.Free? && workers[b].vramMB >= requiredVramMB
                && forall w :: w in workers && workers[w].status.Free? && workers[w].vramMB >= requiredVramMB ==>
                     && workers[b].tier <= workers[w].tier
                     && (workers[b].tier == workers[w].tier ==> workers[b].vramMB >= workers[w].vramMB)
    {
      best := None;
      var rest := workers.Keys;
      while rest != {}
        invariant rest <= workers.Keys
        invariant best.None? ==> forall w :: w in workers && w !in rest ==> !Usable(workers[w], requiredVramMB)
        invariant best.Some? ==>
                    && best.value in workers && Usable(workers[best.value], requiredVramMB)
                    && forall w :: w in workers && w !in rest && Usable(workers[w], requiredVramMB) ==>
                         NoWorse(workers[best.value], workers[w])
        decreases rest
      {
        var w :| w in rest;
        rest := rest - {w};
        if Usable(workers[w], requiredVramMB) {
          if best.None? {
            best := Some(w);
          } else if workers[w].tier < workers[best.value].tier {
            best := Some(w);
          } else if workers[w].tier == workers[best.value].tier && workers[w].vramMB > workers[best.value].vramMB {
            best := Some(w);
          }
        }
      }
    }

    method Mark(id: WorkerId, status: PoolStatus, current: Option<nat>)
      requires Identified(workers)
      modifies this
      ensures Identified(workers) && workers == Marked(old(workers), id, status, current)
    {
      if id !in workers { return; }
      workers := workers[id := workers[id].(status := status, currentSegment := current)];
    }

    /** The workers in collection order. */
    method AllWorkers() returns (ids: seq<WorkerId>)
      ensures Enumerates(workers, ids)
    {
      ids := [];
      var rest := workers.Keys;
      while rest != {}
        invariant rest <= workers.Keys
        invariant forall w :: w in ids <==> w in workers && w !in rest
        invariant forall i, j :: 0 <= i < j < |ids| ==> ids[i] != ids[j]
        decreases rest
      {
        var w :| w in rest;
        rest := rest - {w};
        ids := ids + [w];
      }
    }
  }
}
