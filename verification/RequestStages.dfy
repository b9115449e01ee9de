/** The request life cycle: stages, the transition graph, and paths in it. */
module RequestStages {

  datatype Stage =
    | Accepted | Queued | Leased | Running | RetryWait
    | Completed | Failed | Cancelled

  predicate Terminal(stage: Stage) {
    stage.Completed? || stage.Failed? || stage.Cancelled?
  }

  /** The adjacency table of the state machine. */
  function Successors(from: Stage): set<Stage> {
    match from
    case Accepted => {Queued}
    case Queued => {Leased, Failed, Cancelled}
    case Leased => {Running, Failed, Cancelled}
    case Running => {Completed, Failed, RetryWait, Queued, Cancelled}
    case RetryWait => {Queued, Failed, Cancelled}
    case Completed => {}
    case Failed => {}
    case Cancelled => {}
  }

  predicate Legal(from: Stage, to: Stage) {
    to in Successors(from)
  }

  /** Every edge a durable write may take: the table, and the edge recovery adds. */
  predicate Edge(from: Stage, to: Stage) {
    Legal(from, to) || (from == Leased && to == Queued)
  }

  /** A stage history is a path that starts where every request starts. */
  predicate StagePath(history: seq<Stage>) {
    && (history != [] ==> history[0] == Accepted)
    && forall i :: 0 < i < |history| ==> Edge(history[i - 1], history[i])
  }

  /** A path goes on along an edge from its last stage. */
  lemma PathExtends(history: seq<Stage>, next: Stage)
    requires StagePath(history)
    requires history == [] ==> next == Accepted
    requires history != [] ==> Edge(history[|history| - 1], next)
    ensures StagePath(history + [next])
  {
    var longer := history + [next];
    forall i | 0 < i < |longer| ensures Edge(longer[i - 1], longer[i]) {
      if i < |history| {
        assert longer[i] == history[i] && longer[i - 1] == history[i - 1];
      }
    }
  }
}
