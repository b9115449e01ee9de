/**
 * What both pipelines see and do at an await: the scene before it, the call
 * sent to a worker, and the scene the answer leaves. What workers answer, how
 * the pool and the shared checkpoint store change while a pipeline waits, and
 * which workers the ledger favours are all up to the environment.
 */
module PipelineScenes {
  import opened Options
  import opened DurableTypes
  import opened WorkerPools
  import opened HiddenStates
  import opened SpanRouters

  datatype SpanAssignment = SpanAssignment(requestId: RequestId, first: nat, last: nat, checkpoint: Option<HiddenState>)

  /** A rejection or a timeout; an answer without the shape of a result; or a result whose fields may say anything. */
  datatype SpanAnswer =
    | Rejected
    | Shapeless
    | SpanResult(requestId: RequestId, worker: WorkerId, first: nat, last: nat,
                 checkpoint: Option<HiddenState>, output: Option<Output>)

  datatype Validated = Boundary(checkpoint: HiddenState) | Final(output: Output)

  function ValidateSpanResult(id: RequestId, span: Span, answer: SpanAnswer, isFinal: bool): Option<Validated> {
    if !answer.SpanResult? || answer.requestId != id || answer.worker != span.worker
       || answer.first != span.first || answer.last != span.last then None
    else if isFinal then
      if answer.checkpoint.Some? || answer.output.None? then None else Some(Final(answer.output.value))
    else if answer.output.Some? || answer.checkpoint.None? then None
    else
      var c := answer.checkpoint.value;
      if c.requestId != id || c.segment != span.last || !WellFormed(c) then None else Some(Boundary(c))
  }

  predicate Names(answer: SpanAnswer, id: RequestId, span: Span) {
    && answer.SpanResult? && answer.requestId == id && answer.worker == span.worker
    && answer.first == span.first && answer.last == span.last
  }

  /**
   * A result passes exactly when it names its assignment and is of the kind its
   * place asks for: an output and nothing else at the end, and before the end
   * a well-formed checkpoint of this request at the span's boundary and nothing else.
   */
  lemma ValidationIsExact(id: RequestId, span: Span, answer: SpanAnswer, isFinal: bool)
    ensures forall o :: ValidateSpanResult(id, span, answer, isFinal) == Some(Final(o)) <==>
              Names(answer, id, span) && isFinal && answer.output == Some(o) && answer.checkpoint == None
    ensures forall c :: ValidateSpanResult(id, span, answer, isFinal) == Some(Boundary(c)) <==>
              && Names(answer, id, span) && !isFinal && answer.checkpoint == Some(c) && answer.output == None
              && WellFormed(c) && c.requestId == id && c.segment == span.last
  {}

  type Pool = map<WorkerId, PoolWorker>

  /** One entry for each await, by its number: the worker's answer, and what others leave of the pool and the store. */
  datatype Environment = Environment(
    execute: (nat, WorkerId, SpanAssignment) -> SpanAnswer,
    churn: (nat, Pool) -> Pool,
    others: (nat, Shelves) -> Shelves,
    locality: (nat, WorkerId, nat, nat) -> Locality,
    order: WorkerId -> int)

  datatype Plan = Plan(m: Model, costs: seq<nat>, maxRetries: nat, perSegmentMs: nat, env: Environment)

  /** Identities are kept by whoever changes the pool or the store. */
  ghost predicate KeepsIdentities(env: Environment) {
    && (forall n, pool :: Identified(pool) ==> Identified(env.churn(n, pool)))
    && (forall n, shelves :: Keyed(shelves) ==> Keyed(env.others(n, shelves)))
  }

  ghost predicate Planned(p: Plan) { |p.costs| == p.m.n && KeepsIdentities(p.env) }

  // --- Scenes and calls ---

  /** How many awaits have passed, and what is shared or reported at this moment. */
  datatype Scene = Scene(awaits: nat, pool: Pool, shelves: Shelves, position: nat)

  ghost predicate Orderly(s: Scene) { Identified(s.pool) && Keyed(s.shelves) }

  /** An await passes, and others may change the pool and the store. */
  function Waited(p: Plan, s: Scene): Scene {
    s.(awaits := s.awaits + 1, pool := p.env.churn(s.awaits, s.pool), shelves := p.env.others(s.awaits, s.shelves))
  }

  /** A call of the executor: what was seen when it was sent, to whom, and what was asked. */
  datatype Call = Call(at: Scene, worker: WorkerId, assignment: SpanAssignment)

  function AnswerTo(m: Model, env: Environment, n: nat, w: WorkerId, a: SpanAssignment): Option<Validated> {
    ValidateSpanResult(a.requestId, Span(w, a.first, a.last), env.execute(n, w, a), a.last == m.n - 1)
  }

  /** The answer to a call, as the pipeline sees it; none if it is refused. */
  function Verdict(p: Plan, c: Call): Option<Validated> {
    AnswerTo(p.m, p.env, c.at.awaits, c.worker, c.assignment)
  }

  /** The call sent and answered, a boundary saved, and the worker free again, or out of the choice if it failed. */
  function Settled(p: Plan, c: Call): Scene {
    var t := Waited(p, c.at.(pool := Marked(c.at.pool, c.worker, Working, Some(c.assignment.first))));
    match Verdict(p, c)
    case None => t.(pool := Marked(t.pool, c.worker, Gone, None))
    case Some(Boundary(b)) => t.(shelves := Stored(t.shelves, b), pool := Marked(t.pool, c.worker, Free, None))
    case Some(Final(_)) => t.(pool := Marked(t.pool, c.worker, Free, None))
  }

  // --- Honest workers and honest others ---

  function InputOf(a: SpanAssignment, prompt: Payload): Payload {
    if a.checkpoint.Some? then a.checkpoint.value.payload else prompt
  }

  /** An accepted result is what its segments compute from the input; a refused one may be anything. */
  predicate Computes(m: Model, prompt: Payload, a: SpanAssignment, result: Validated)
    requires a.first <= a.last < m.n
  {
    match result
    case Boundary(c) => c.payload == Compose(m, a.first, a.last + 1, InputOf(a, prompt))
    case Final(o) => o == m.finish(Compose(m, a.first, a.last, InputOf(a, prompt)))
  }

  predicate HonestAnswer(m: Model, prompt: Payload, env: Environment, n: nat, w: WorkerId, a: SpanAssignment) {
    a.first <= a.last < m.n ==>
      match AnswerTo(m, env, n, w, a)
      case Some(result) => Computes(m, prompt, a, result)
      case None => true
  }

  /** Every resumable checkpoint of the request is honest. */
  predicate AllHonest(m: Model, id: RequestId, prompt: Payload, checkpoints: map<nat, HiddenState>) {
    forall k :: k in checkpoints && k + 1 < m.n ==> Honest(m, id, prompt, checkpoints[k])
  }

  /** What passes as a result is computed, and what others leave of this request's checkpoints is honest. */
  ghost predicate HonestWorld(p: Plan, id: RequestId, prompt: Payload) {
    && (forall n: nat, w: WorkerId, a: SpanAssignment :: HonestAnswer(p.m, prompt, p.env, n, w, a))
    && (forall n, shelves :: AllHonest(p.m, id, prompt, ShelfOf(shelves, id)) ==>
          AllHonest(p.m, id, prompt, ShelfOf(p.env.others(n, shelves), id)))
  }

  /** The checkpoint a suffix starts from: none for the whole model, else the one just before it. */
  predicate StartsFrom(m: Model, id: RequestId, prompt: Payload, start: nat, c: Option<HiddenState>) {
    if start == 0 then c.None? else c.Some? && c.value.segment + 1 == start && Honest(m, id, prompt, c.value)
  }

  /** An accepted result continues the chain of honest hidden states. */
  lemma AcceptedIsHonest(m: Model, prompt: Payload, a: SpanAssignment, result: Validated)
    requires a.first <= a.last < m.n
    requires StartsFrom(m, a.requestId, prompt, a.first, a.checkpoint) && Computes(m, prompt, a, result)
    requires result.Boundary? ==>
               a.last < m.n - 1 && result.checkpoint.requestId == a.requestId && result.checkpoint.segment == a.last
    requires result.Final? ==> a.last == m.n - 1
    ensures result.Boundary? ==> StartsFrom(m, a.requestId, prompt, a.last + 1, Some(result.checkpoint))
    ensures result.Final? ==> result.output == Reference(m, prompt)
  {
    assert InputOf(a, prompt) == Compose(m, 0, a.first, prompt);
    ComposeJoins(m, 0, a.first, a.last + 1, prompt);
    ComposeJoins(m, 0, a.first, a.last, prompt);
  }

  /** A wait keeps the scene orderly and its checkpoints honest. */
  lemma WaitedStaysHonest(p: Plan, id: RequestId, prompt: Payload, s: Scene)
    requires Planned(p) && HonestWorld(p, id, prompt) && Orderly(s)
    requires AllHonest(p.m, id, prompt, ShelfOf(s.shelves, id))
    ensures Orderly(Waited(p, s)) && AllHonest(p.m, id, prompt, ShelfOf(Waited(p, s).shelves, id))
  {}

  /**
   * A call from an honest input leaves honest checkpoints behind; an accepted
   * boundary is the honest input of the next segment, and an output is the
   * reference.
   */
  lemma SettledStaysHonest(p: Plan, id: RequestId, prompt: Payload, c: Call)
    requires Planned(p) && HonestWorld(p, id, prompt) && Orderly(c.at)
    requires AllHonest(p.m, id, prompt, ShelfOf(c.at.shelves, id))
    requires c.assignment.requestId == id && c.assignment.first <= c.assignment.last < p.m.n
    requires StartsFrom(p.m, id, prompt, c.assignment.first, c.assignment.checkpoint)
    ensures Orderly(Settled(p, c)) && AllHonest(p.m, id, prompt, ShelfOf(Settled(p, c).shelves, id))
    ensures match Verdict(p, c)
            case Some(Final(o)) => c.assignment.last == p.m.n - 1 && o == Reference(p.m, prompt)
            case Some(Boundary(b)) =>
              && c.assignment.last < p.m.n - 1 && b.segment == c.assignment.last && b.requestId == id
              && StartsFrom(p.m, id, prompt, c.assignment.last + 1, Some(b))
              && c.assignment.last in ShelfOf(Settled(p, c).shelves, id)
              && ShelfOf(Settled(p, c).shelves, id)[c.assignment.last] == b
            case None => true
  {
    hide Compose, Honest, WellFormed;
    var a := c.assignment;
    var marked := c.at.(pool := Marked(c.at.pool, c.worker, Working, Some(a.first)));
    WaitedStaysHonest(p, id, prompt, marked);
    assert HonestAnswer(p.m, prompt, p.env, c.at.awaits, c.worker, a);
    if Verdict(p, c).Some? {
      AcceptedIsHonest(p.m, prompt, a, Verdict(p, c).value);
    }
  }

  // --- What is left alone ---

  /** Nobody else touches any request but this one. */
  ghost predicate OthersKeepAway(p: Plan, id: RequestId) {
    forall n, shelves :: OnlyTouches(shelves, p.env.others(n, shelves), id)
  }

  /** Nobody else touches this request's checkpoints. */
  ghost predicate Undisturbed(p: Plan, id: RequestId) {
    forall n, shelves :: ShelfOf(p.env.others(n, shelves), id) == ShelfOf(shelves, id)
  }

  /** A call saves nothing but a boundary of its own request. */
  lemma SettledTouchesOwn(p: Plan, c: Call)
    requires OthersKeepAway(p, c.assignment.requestId)
    ensures OnlyTouches(c.at.shelves, Settled(p, c).shelves, c.assignment.requestId)
  {}

  // --- What a call leaves of the pool ---

  /**
   * While a worker is called the others see it at work on the first segment of its span; then
   * it is free if its answer was accepted and out of the choice if not, and every other worker
   * is as the others left it.
   */
  lemma CallsLeave(p: Plan, c: Call)
    ensures var during := Marked(c.at.pool, c.worker, Working, Some(c.assignment.first));
            var left, t := p.env.churn(c.at.awaits, during), Settled(p, c);
            && (c.worker in c.at.pool ==>
                  during == c.at.pool[c.worker := c.at.pool[c.worker].(status := Working,
                                                                       currentSegment := Some(c.assignment.first))])
            && t.pool.Keys == left.Keys && (forall v :: v in left && v != c.worker ==> t.pool[v] == left[v])
            && (c.worker in left ==>
                  t.pool[c.worker] == left[c.worker].(status := if Verdict(p, c).Some? then Free else Gone,
                                                      currentSegment := None))
            && t.awaits == c.at.awaits + 1 && t.position == c.at.position
  {
    hide Verdict;
  }

  // --- Workers whose result was refused ---

  /** Not in the pool, or disconnected: no call goes to the worker. */
  predicate Out(pool: Pool, w: WorkerId) { w in pool ==> pool[w].status.Gone? }

  /** Nobody brings a disconnected worker back: no heartbeat of it comes in. */
  ghost predicate StayOut(p: Plan) {
    forall n, pool, w :: Out(pool, w) ==> Out(p.env.churn(n, pool), w)
  }

  lemma CallsKeepOut(p: Plan, c: Call, w: WorkerId)
    requires StayOut(p) && Out(c.at.pool, w) && w != c.worker
    ensures Out(Settled(p, c).pool, w)
  {
    hide Verdict, Settled, StayOut;
    var during := Marked(c.at.pool, c.worker, Working, Some(c.assignment.first));
    CallsLeave(p, c);
    StaysOut(p, c.at.awaits, during, w);
  }

  lemma StaysOut(p: Plan, n: nat, pool: Pool, w: WorkerId)
    requires StayOut(p) && Out(pool, w)
    ensures Out(p.env.churn(n, pool), w)
  {
    hide Out;
  }

  lemma WaitsKeepOut(p: Plan, s: Scene, w: WorkerId)
    requires StayOut(p) && Out(s.pool, w)
    ensures Out(Waited(p, s).pool, w)
  {
    hide StayOut;
    StaysOut(p, s.awaits, s.pool, w);
  }

  /** A worker whose result is refused is out. */
  lemma RefusedAreOut(p: Plan, c: Call)
    requires Verdict(p, c).None?
    ensures Out(Settled(p, c).pool, c.worker)
  {
    hide Verdict, Settled;
    CallsLeave(p, c);
  }
}
