/** The checkpoint store of the pipelines, and what a segmented model computes. */
module HiddenStates {
  import opened Options
  import opened DurableTypes
  import opened SafeIntegers
  import opened Texts

  type Payload = seq<bv8>

  datatype Metadata = Metadata(shape: seq<int>, dtype: string, sequenceLength: int, timestamp: int)

  datatype HiddenState = HiddenState(requestId: RequestId, segment: nat, payload: Payload, metadata: Metadata)

  /** What the store demands of a checkpoint before it takes it. */
  predicate WellFormed(c: HiddenState) {
    && !Blank(c.requestId) && NonNegative(c.segment) && c.payload != []
    && |c.metadata.shape| == 3
    && Positive(c.metadata.shape[0]) && Positive(c.metadata.shape[1]) && Positive(c.metadata.shape[2])
    && !Blank(c.metadata.dtype)
    && NonNegative(c.metadata.sequenceLength) && c.metadata.sequenceLength == c.metadata.shape[1]
    && NonNegative(c.metadata.timestamp)
  }

  datatype Output = Output(tokens: seq<nat>, text: string)

  // --- The model as a function ---

  /** `n` segments; all but the last turn a hidden state into the next, the last produces the output. */
  datatype Model = Model(n: nat, step: (nat, Payload) -> Payload, finish: Payload -> Output)

  /** Segments `lo` up to, but not including, `hi`, one after the other. */
  function Compose(m: Model, lo: nat, hi: nat, input: Payload): Payload
    requires lo <= hi
    decreases hi - lo
  {
    if lo == hi then input else m.step(hi - 1, Compose(m, lo, hi - 1, input))
  }

  /** Running two stretches one after the other is running them as one. */
  lemma {:induction false} ComposeJoins(m: Model, lo: nat, mid: nat, hi: nat, input: Payload)
    requires lo <= mid <= hi
    ensures Compose(m, mid, hi, Compose(m, lo, mid, input)) == Compose(m, lo, hi, input)
    decreases hi
  {
    if mid < hi {
      ComposeJoins(m, lo, mid, hi - 1, input);
    }
  }

  /** What running every segment in order on one machine would produce. */
  function Reference(m: Model, prompt: Payload): Output {
    if m.n == 0 then Output([], "") else m.finish(Compose(m, 0, m.n - 1, prompt))
  }

  /** A checkpoint that holds what the segments before it compute. */
  predicate Honest(m: Model, id: RequestId, prompt: Payload, c: HiddenState) {
    c.requestId == id && c.segment + 1 < m.n && c.payload == Compose(m, 0, c.segment + 1, prompt)
  }

  // --- The store ---

  type Shelves = map<RequestId, map<nat, HiddenState>>

  function ShelfOf(shelves: Shelves, id: RequestId): map<nat, HiddenState> {
    if id in shelves then shelves[id] else map[]
  }

  function Stored(shelves: Shelves, c: HiddenState): Shelves {
    shelves[c.requestId := ShelfOf(shelves, c.requestId)[c.segment := c]]
  }

  /** Checkpoints sit under their own segment. */
  predicate Keyed(shelves: Shelves) {
    forall id :: id in shelves ==> forall k :: k in shelves[id] ==> shelves[id][k].segment == k
  }

  /** The checkpoint of the highest segment that does not pass the bound. */
  function Newest(shelf: map<nat, HiddenState>, bound: int): (c: Option<HiddenState>)
    ensures c.None? ==> forall k :: k in shelf ==> k > bound
    ensures c.Some? ==>
              exists k :: k in shelf && k <= bound && shelf[k] == c.value
                          && forall j :: j in shelf && j <= bound ==> j <= k
    decreases if bound < 0 then 0 else bound + 1
  {
    if bound < 0 then None else if bound in shelf then Some(shelf[bound]) else Newest(shelf, bound - 1)
  }

  /** No other request's checkpoints were touched. */
  ghost predicate OnlyTouches(before: Shelves, after: Shelves, id: RequestId) {
    forall other :: other != id ==> ShelfOf(after, other) == ShelfOf(before, other)
  }

  class CheckpointStore {
    var store: Shelves

    constructor ()
      ensures store == map[] && Valid()
    {
      store := map[];
    }

    predicate Valid()
      reads this
    {
      Keyed(store)
    }

    function Of(id: RequestId): map<nat, HiddenState>
      reads this
    {
      ShelfOf(store, id)
    }

    /** An ill-formed checkpoint is refused and leaves the store as it was. */
    method Save(c: HiddenState) returns (ok: bool)
      requires Valid()
      modifies this
      ensures Valid() && ok == WellFormed(c)
      ensures store == if ok then Stored(old(store), c) else old(store)
    {
      ok := WellFormed(c);
      if ok {
        store := store[c.requestId := Of(c.requestId)[c.segment := c]];
      }
    }

    method Get(id: RequestId, segment: nat) returns (c: Option<HiddenState>)
      requires Valid()
      ensures c == if segment in Of(id) then Some(Of(id)[segment]) else None
    {
      return if id in store && segment in store[id] then Some(store[id][segment]) else None;
    }

    method Latest(id: RequestId, bound: int) returns (c: Option<HiddenState>)
      requires Valid()
      ensures c == Newest(Of(id), bound)
    {
      c := None;
      if bound < 0 || id !in store { return; }
      var rest := store[id].Keys;
      while rest != {}
        invariant rest <= store[id].Keys
        invariant c.None? ==> forall k :: k in store[id] && k !in rest ==> k > bound
        invariant c.Some? ==>
                    && c.value.segment in store[id] && store[id][c.value.segment] == c.value && c.value.segment <= bound
                    && forall k :: k in store[id] && k !in rest && k <= bound ==> k <= c.value.segment
        decreases rest
      {
        var k :| k in rest;
        rest := rest - {k};
        if k <= bound && (c.None? || k > c.value.segment) {
          c := Some(store[id][k]);
        }
      }
    }

    method DeleteAll(id: RequestId)
      requires Valid()
      modifies this
      ensures Valid() && store == old(store) - {id}
    {
      store := store - {id};
    }
  }
}
