/**
 * Views of the in-memory repository's records. Creating or putting a record
 * makes a new record object; a view holds the object that was current when it
 * was taken, and writes to that object, current or not.
 */
module InMemoryViews {
  import opened DurableTypes
  import opened Store
  import opened DurableObjectRepositories
  import opened InMemoryRepositories

  /** What a record object was made for; its identity fields are protected. */
  datatype Born = BornRequest(id: RequestId) | BornWorker(worker: WorkerId, generation: Generation)

  /** The records, the object each sits in, and every object ever made. */
  datatype Scene = Scene(
    store: Store, requests: map<RequestId, nat>, workers: map<WorkerId, nat>, born: seq<Born>)

  const Opening: Scene := Scene(Empty, map[], map[], [])

  /** Each record sits in an object made for it, and no request is ever deleted. */
  ghost predicate Settled(s: Scene) {
    && s.requests.Keys == s.store.requests.Keys
    && s.workers.Keys == s.store.workers.Keys
    && (forall id :: id in s.requests ==> s.requests[id] < |s.born| && s.born[s.requests[id]] == BornRequest(id))
    && (forall w :: w in s.workers ==>
          s.workers[w] < |s.born| && s.born[s.workers[w]] == BornWorker(w, s.store.workers[w].generation))
    && (forall n :: 0 <= n < |s.born| && s.born[n].BornRequest? ==> s.born[n].id in s.requests)
  }

  predicate RequestViewed(s: Scene, target: nat, copy: Request) {
    target < |s.born| && s.born[target] == BornRequest(copy.id)
  }

  predicate WorkerViewed(s: Scene, target: nat, field: WorkerWrite) {
    target < |s.born| && s.born[target].BornWorker?
    && WorkerFieldWrite(s.born[target].worker, s.born[target].generation, field)
  }

  /** The object a request view holds is still the stored one. */
  predicate RequestIsCurrent(s: Scene, target: nat) {
    target < |s.born| && s.born[target].BornRequest?
    && s.born[target].id in s.requests && s.requests[s.born[target].id] == target
  }

  predicate WorkerIsCurrent(s: Scene, target: nat) {
    target < |s.born| && s.born[target].BornWorker?
    && s.born[target].worker in s.workers && s.workers[s.born[target].worker] == target
  }

  function Created(s: Scene, record: Request): (t: Scene)
    ensures Settled(s) ==> Settled(t)
  {
    s.(store := Apply(s.store, Requests(CreateRequest(record))),
       requests := s.requests[record.id := |s.born|],
       born := s.born + [BornRequest(record.id)])
  }

  function Registered(s: Scene, w: Worker): (t: Scene)
    ensures Settled(s) ==> Settled(t)
  {
    s.(store := Apply(s.store, Workers(PutWorker(w))),
       workers := s.workers[w.id := |s.born|],
       born := s.born + [BornWorker(w.id, w.generation)])
  }

  function Removed(s: Scene, w: WorkerId): (t: Scene)
    ensures Settled(s) ==> Settled(t)
  {
    s.(store := Apply(s.store, Workers(DeleteWorker(w))), workers := s.workers - {w})
  }

  /** A write that leaves every record in its object. */
  predicate InPlace(op: Op) {
    !(op.Requests? && op.request.CreateRequest?) && !(op.Workers? && (op.worker.PutWorker? || op.worker.DeleteWorker?))
  }

  lemma InPlaceSettles(s: Scene, op: Op)
    requires Settled(s) && InPlace(op)
    ensures Settled(s.(store := Apply(s.store, op)))
  {}

  /** The in-memory repository together with the objects its views hold. */
  class LiveRepository {
    const repo: InMemoryRepository
    var requestObjects: map<RequestId, nat>
    var workerObjects: map<WorkerId, nat>
    var born: seq<Born>

    constructor (repo: InMemoryRepository)
      requires repo.Valid() && repo.Model() == Empty
      ensures this.repo == repo && Valid() && Now() == Opening
    {
      this.repo := repo;
      requestObjects, workerObjects, born := map[], map[], [];
    }

    ghost function Now(): Scene
      reads this, repo
    {
      Scene(repo.Model(), requestObjects, workerObjects, born)
    }

    ghost predicate Valid()
      reads this, repo
    {
      repo.Valid() && Settled(Now())
    }

    lemma RepoIsValid()
      requires Valid()
      ensures repo.Valid()
    {}

    lemma IsSettled()
      requires Valid()
      ensures Settled(Now())
    {}

    method CreateRequest(record: Request)
      requires Valid()
      modifies this, repo
      ensures Valid() && Now() == Created(old(Now()), record)
    {
      hide InMemoryRepository.Valid;
      repo.CreateRequest(record);
      requestObjects := requestObjects[record.id := |born|];
      born := born + [BornRequest(record.id)];
      assert Now() == Created(old(Now()), record);
    }

    method PutWorker(w: Worker)
      requires Valid()
      modifies this, repo
      ensures Valid() && Now() == Registered(old(Now()), w)
    {
      hide InMemoryRepository.Valid;
      repo.PutWorker(w);
      workerObjects := workerObjects[w.id := |born|];
      born := born + [BornWorker(w.id, w.generation)];
      assert Now() == Registered(old(Now()), w);
    }

    method DeleteWorker(id: WorkerId)
      requires Valid()
      modifies this, repo
      ensures Valid() && Now() == Removed(old(Now()), id)
    {
      hide InMemoryRepository.Valid;
      repo.DeleteWorker(id);
      workerObjects := workerObjects - {id};
      assert Now() == Removed(old(Now()), id);
    }

    /** A property written on a request view: the stored record has it only if the view's object is stored. */
    method WriteRequestField(target: nat, write: RequestWrite, ghost copy: Request)
      requires Valid() && RequestViewed(Now(), target, copy) && FieldWrite(copy, write)
      modifies repo
      ensures Valid()
      ensures Now() == if RequestIsCurrent(old(Now()), target)
                       then old(Now()).(store := Apply(old(repo.Model()), Requests(write))) else old(Now())
    {
      hide InMemoryRepository.Valid;
      InPlaceSettles(Now(), Requests(write));
      if requestObjects[born[target].id] != target { return; }
      match write
      case SetCurrentSegment(id, segment) => repo.SetCurrentSegment(id, segment);
      case SetRetryCount(id, count) => repo.SetRetryCount(id, count);
      case SetError(id, code) => repo.SetError(id, code);
    }

    method WriteWorkerField(target: nat, field: WorkerWrite)
      requires Valid() && WorkerViewed(Now(), target, field)
      modifies repo
      ensures Valid()
      ensures Now() == if WorkerIsCurrent(old(Now()), target)
                       then old(Now()).(store := Apply(old(repo.Model()), Workers(field))) else old(Now())
    {
      hide InMemoryRepository.Valid;
      InPlaceSettles(Now(), Workers(field));
      var id, generation := born[target].worker, born[target].generation;
      if id !in workerObjects || workerObjects[id] != target { return; }
      match field
      case SetWorkerStage(_, _, stage) => repo.SetWorkerStage(id, generation, stage);
      case SetWorkerSegment(_, _, current) => repo.SetWorkerSegment(id, generation, current);
      case SetHeartbeat(_, _, at) => repo.SetHeartbeat(id, generation, at);
    }
  }
}
