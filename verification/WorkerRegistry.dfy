/** The worker registry: generations, their fencing, and the choice of a worker. */
module WorkerRegistries {
  import opened Options
  import opened DurableTypes
  import opened Store
  import opened Steps
  import opened InMemoryRepositories
  import opened LeaseManagers

  datatype HeartbeatAnswer = Beats | NoSuchWorker | StaleGenerationRefused

  /** Every worker sits under its own identifier, and no two share a generation. */
  predicate UniqueWorkers(workers: map<WorkerId, Worker>) {
    && (forall w :: w in workers ==> workers[w].id == w)
    && (forall a, b :: a in workers && b in workers && workers[a].generation == workers[b].generation ==> a == b)
  }

  predicate SameGenerations(m: map<WorkerId, Worker>, n: map<WorkerId, Worker>) {
    m.Keys == n.Keys && forall w :: w in m ==> m[w].id == n[w].id && m[w].generation == n[w].generation
  }

  /** No stored worker has this generation. */
  predicate NewTo(workers: map<WorkerId, Worker>, g: Generation) {
    forall w :: w in workers ==> workers[w].generation != g
  }

  /** An idle worker with the memory, of the lowest tier and then of the most memory; none only if there is none. */
  ghost predicate BestIdle(workers: map<WorkerId, Worker>, requiredVramMB: nat, best: Option<WorkerId>) {
    match best
    case None => forall w :: w in workers && workers[w].stage == Idle ==> workers[w].vramMB < requiredVramMB
    case Some(b) =>
      && b in workers && workers[b].stage == Idle && workers[b].vramMB >= requiredVramMB
      && forall w :: w in workers && workers[w].stage == Idle && workers[w].vramMB >= requiredVramMB ==>
           && workers[b].tier <= workers[w].tier
           && (workers[b].tier == workers[w].tier ==> workers[b].vramMB >= workers[w].vramMB)
  }

  class WorkerRegistry {
    const store: InMemoryRepository
    /** The archive of revoked generations, for tracing late results. */
    var revokedGenerations: map<Generation, Worker>

    constructor (store: InMemoryRepository)
      ensures this.store == store && Valid()
    {
      this.store := store;
      revokedGenerations := map[];
    }

    /** Everything archived is revoked, under its own generation. */
    predicate Valid()
      reads this
    {
      forall g :: g in revokedGenerations ==>
          revokedGenerations[g].stage == Revoked && revokedGenerations[g].generation == g
    }

    method MarkAs(id: WorkerId, generation: Generation, stage: WorkerStage, current: Option<nat>)
      requires store.Valid()
      modifies store`workers, store`log
      ensures Wrote(store, Mark(old(store.Model()), id, generation, stage, current))
      ensures SameGenerations(old(store.workers), store.workers)
    {
      if id !in store.workers || generation != store.workers[id].generation { return; }
      store.SetWorkerStage(id, generation, stage);
      store.SetWorkerSegment(id, generation, current);
    }

    method MarkWorkerDisconnected(id: WorkerId, generation: Generation)
      requires store.Valid()
      modifies store`workers, store`log
      ensures Wrote(store, MarkDisconnected(old(store.Model()), id, generation))
      ensures SameGenerations(old(store.workers), store.workers)
    {
      MarkAs(id, generation, Disconnected, None);
    }

    method MarkWorkerIdle(id: WorkerId, generation: Generation)
      requires store.Valid()
      modifies store`workers, store`log
      ensures Wrote(store, MarkIdle(old(store.Model()), id, generation))
      ensures SameGenerations(old(store.workers), store.workers)
    {
      MarkAs(id, generation, Idle, None);
    }

    /** Refused unless the generation is the stored one, which is never a revoked one. */
    method BeatFrom(id: WorkerId, generation: Generation, now: nat) returns (answer: HeartbeatAnswer)
      requires store.Valid()
      modifies store`workers, store`log
      ensures answer == if id !in old(store.workers) then NoSuchWorker
                        else if old(store.workers)[id].generation != generation then StaleGenerationRefused else Beats
      ensures Wrote(store, Heartbeat(old(store.Model()), id, generation, now))
    {
      if id !in store.workers { return NoSuchWorker; }
      if generation != store.workers[id].generation { return StaleGenerationRefused; }
      store.SetHeartbeat(id, generation, now);
      if store.workers[id].stage == Disconnected {
        store.SetWorkerStage(id, generation, Idle);
      }
      return Beats;
    }

    /** Lowest tier first, then most VRAM, among idle workers with enough of it. */
    method GetAvailableWorker(requiredVramMB: nat) returns (best: Option<WorkerId>)
      requires store.Valid()
      ensures Picked(store.Model(), requiredVramMB, best)
      ensures BestIdle(store.workers, requiredVramMB, best)
    {
      best := None;
      var rest := store.workers.Keys;
      while rest != {}
        invariant rest <= store.workers.Keys
        invariant best.Some? ==> best.value in store.workers && Candidate(store.workers[best.value], requiredVramMB)
        invariant forall w :: w in store.workers && w !in rest && Candidate(store.workers[w], requiredVramMB) ==>
                    best.Some? && AtLeastAsGood(store.workers[best.value], store.workers[w])
        decreases rest
      {
        var w :| w in rest;
        rest := rest - {w};
        var worker := store.workers[w];
        if worker.stage == Idle && worker.vramMB >= requiredVramMB {
          if best.None? {
            best := Some(w);
          } else {
            var leader := store.workers[best.value];
            if worker.tier < leader.tier || (worker.tier == leader.tier && worker.vramMB > leader.vramMB) {
              best := Some(w);
            }
          }
        }
      }
    }

    /** The silent workers, revoked ones excluded. */
    method ListTimedOut(timeoutMs: nat, now: nat) returns (silent: set<WorkerId>)
      requires store.Valid()
      ensures forall w :: w in silent <==>
                w in store.workers && store.workers[w].stage != Revoked
                    && now > store.workers[w].lastHeartbeat + timeoutMs
    {
      silent := {};
      var rest := store.workers.Keys;
      while rest != {}
        invariant rest <= store.workers.Keys
        invariant forall w :: w in silent <==>
                    && w in store.workers && w !in rest
                    && store.workers[w].stage != Revoked && now > store.workers[w].lastHeartbeat + timeoutMs
        decreases rest
      {
        var w :| w in rest;
        rest := rest - {w};
        if store.workers[w].stage != Revoked && now > store.workers[w].lastHeartbeat + timeoutMs {
          silent := silent + {w};
        }
      }
    }

    /** Mark the stored record, archive a copy, and delete the record. */
    method RevokeStored(id: WorkerId)
      requires store.Valid() && Valid() && id in store.workers
      modifies this, store`workers, store`log
      ensures Valid()
      ensures old(store.workers)[id].generation in revokedGenerations
      ensures store.workers == old(store.workers) - {id}
      ensures Wrote(store, RevokeWorker(old(store.Model()), id, old(store.workers)[id].generation))
    {
      var generation := store.workers[id].generation;
      store.SetWorkerStage(id, generation, Revoked);
      revokedGenerations := revokedGenerations[generation := store.workers[id]];
      store.DeleteWorker(id);
    }

    /** Revoke a generation if it is the stored one; archive it in any case. */
    method RevokeGeneration(id: WorkerId, generation: Generation, now: nat)
      requires store.Valid() && Valid()
      modifies this, store`workers, store`log
      ensures Valid() && generation in revokedGenerations
      ensures store.workers
              == old(store.workers) - (if GenerationStored(old(store.workers), id, generation) then {id} else {})
      ensures Wrote(store, RevokeWorker(old(store.Model()), id, generation))
    {
      if id in store.workers && store.workers[id].generation == generation {
        RevokeStored(id);
      } else {
        var archived := if generation in revokedGenerations then revokedGenerations[generation]
                        else Worker(id, generation, "unknown", 3, 0, Revoked, now, None);
        revokedGenerations := revokedGenerations[generation := archived.(id := id)];
      }
    }

    /** The live record of a generation, or the archived one. */
    method GetByGeneration(generation: Generation) returns (record: Option<Worker>)
      requires store.Valid() && Valid() && UniqueWorkers(store.workers)
      ensures record.Some? && record.value.stage != Revoked <==> KnowsGeneration(store.Model(), generation)
      ensures record.Some? ==> record.value.generation == generation
    {
      var rest := store.workers.Keys;
      while rest != {}
        invariant rest <= store.workers.Keys
        invariant forall w :: w in store.workers && w !in rest ==> store.workers[w].generation != generation
        decreases rest
      {
        var w :| w in rest;
        if store.workers[w].generation == generation {
          assert KnowsGeneration(store.Model(), generation) <==> store.workers[w].stage != Revoked;
          return Some(store.workers[w]);
        }
        rest := rest - {w};
      }
      return if generation in revokedGenerations then Some(revokedGenerations[generation]) else None;
    }

    /** Refresh on the same connection, replace on another, create if unknown. */
    method RegisterWith(id: WorkerId, tier: nat, vramMB: nat, connection: string, newGeneration: Generation, now: nat)
      returns (outcome: RegisterOutcome)
      requires store.Valid() && Valid()
      modifies this, store`workers, store`log
      ensures Valid()
      ensures outcome == RegistryOutcome(old(store.Model()), id, connection, newGeneration)
      ensures UniqueWorkers(old(store.workers)) && NewTo(old(store.workers), newGeneration) ==>
                UniqueWorkers(store.workers)
      ensures Wrote(store, RegistryWrites(old(store.Model()), id, tier, vramMB, connection, newGeneration, now))
    {
      hide InMemoryRepository.Valid, UniqueWorkers, NewTo;
      var created := Worker(id, newGeneration, connection, tier, vramMB, Idle, now, None);
      RegisteringKeepsUnique(store.workers, id, created);
      if id in store.workers && store.workers[id].connectionId == connection {
        var current := store.workers[id];
        var refreshed := current.(tier := tier, vramMB := vramMB, stage := if current.stage == Revoked then Idle
                                  else current.stage);
        store.PutWorker(refreshed);
        return Updated(current.generation);
      }
      if id in store.workers {
        var previous := store.workers[id].generation;
        RevokeStored(id);
        store.PutWorker(created);
        return Reconnected(previous, newGeneration);
      }
      store.PutWorker(created);
      return Created(newGeneration);
    }
  }

  /** A refreshed record and a new one leave the workers unique, and so does dropping the old one first. */
  lemma RegisteringKeepsUnique(m: map<WorkerId, Worker>, id: WorkerId, created: Worker)
    requires created.id == id
    ensures UniqueWorkers(m) && id in m ==>
              forall w: Worker :: w.id == m[id].id && w.generation == m[id].generation ==> UniqueWorkers(m[w.id := w])
    ensures UniqueWorkers(m) && NewTo(m, created.generation) ==>
              UniqueWorkers(m[id := created]) && UniqueWorkers((m - {id})[id := created])
  {}
}
