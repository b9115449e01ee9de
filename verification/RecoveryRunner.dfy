/**
 * The runner that recovers one request: decide, wait or resume, renew the claim
 * on a timer while resumed, and let go at the end. Peers write in between.
 */
module RecoveryRunner {
  import opened Options
  import opened DurableTypes
  import opened Store
  import opened Steps
  import opened Discipline
  import opened RecoveryHandoff
  import opened RecoveryOwnership
  import opened RequestStages

  function Maximum(a: int, b: int): int { if a < b then b else a }

  function Minimum(a: int, b: int): int { if b < a then b else a }

  predicate BoundsWait(wait: int, now: int, deadlines: seq<Option<int>>) {
    forall i :: 0 <= i < |deadlines| && deadlines[i].Some? ==> wait <= Maximum(0, deadlines[i].value - now)
  }

  /** How long to wait: no longer than the poll interval, nor past any deadline. */
  method BoundedWait(now: int, pollMs: int, deadlines: seq<Option<int>>) returns (wait: int)
    ensures 0 <= wait <= Maximum(0, pollMs)
    ensures BoundsWait(wait, now, deadlines)
    ensures wait == Maximum(0, pollMs)
            || exists i :: 0 <= i < |deadlines| && deadlines[i].Some? && wait == Maximum(0, deadlines[i].value - now)
  {
    wait := Maximum(0, pollMs);
    for i := 0 to |deadlines|
      invariant 0 <= wait <= Maximum(0, pollMs)
      invariant BoundsWait(wait, now, deadlines[..i])
      invariant wait == Maximum(0, pollMs)
                || exists k :: 0 <= k < i && deadlines[k].Some? && wait == Maximum(0, deadlines[k].value - now)
    {
      ghost var before := wait;
      assert forall k :: 0 <= k < i ==> deadlines[..i][k] == deadlines[..i + 1][k];
      if deadlines[i].Some? {
        wait := Minimum(wait, Maximum(0, deadlines[i].value - now));
      }
      assert wait <= before;
    }
    assert deadlines[..|deadlines|] == deadlines;
  }

  /** The interval of the renewal timer. */
  function RenewEvery(intervalMs: nat, ttlMs: nat): (every: nat)
    ensures every >= 1
    ensures every < ttlMs <==> ttlMs >= 2
  {
    Maximum(1, Minimum(intervalMs, Maximum(1, ttlMs - 1)))
  }

  datatype Settings = Settings(
    id: RequestId, owner: OwnerId, ttlMs: nat, intervalMs: nat, maxRetries: nat, digest: string)

  /** How the runner came back to its caller. */
  datatype End =
    | Done                 // the request is missing or terminal
    | ResumedToTheEnd
    | RenewalThrew         // a renewal threw, which is what the caller is told
    | ResumeThrew
    | OwnershipLost
    | CallerAborted

  datatype Pc =
    | Deciding
    | Waiting
    | Resumed(claimedAt: nat, renewedAt: nat, lost: bool, failed: bool)
    | Stopped(end: End)

  datatype State = State(store: Store, pc: Pc, clock: nat)

  datatype Event =
    | Decides(found: seq<Checkpoint>)
    | Wakes
    | Aborts                            // the caller's signal, before or while waiting
    | Renews
    | RenewalThrows(written: bool)      // before or after the claim was written
    | Settles(threw: bool)              // the resumed execution returned or threw
    | PeerWrites(op: Op)
    | Ticks(ms: nat)

  /** Anyone else's write: never a claim or a release in this runner's name. */
  predicate ByPeer(c: Settings, s: State, op: Op) {
    && (Claims(op, c.id) ==> op.book.ownership.ownerId != c.owner && op.book.now == s.clock)
    && !(op.Bookkeeping? && op.book.Release? && op.book.id == c.id && op.book.ownerId == c.owner)
  }

  function DecisionPc(out: RecoveryOutcome, now: nat): Pc {
    match out
    case Missing => Stopped(Done)
    case RecoveredTerminal(_) => Stopped(Done)
    case OwnedByPeer(_) => Waiting
    case WaitOwner(_, _) => Waiting
    case StateChanged(_) => Waiting
    case ResumeClaimed(_, _, _, _) => Resumed(now, now, false, false)
  }

  function Decision(c: Settings, s: State, found: seq<Checkpoint>): Step<RecoveryOutcome> {
    BeginRecovery(s.store, c.id, c.owner, s.clock, c.ttlMs, c.maxRetries, c.digest, found)
  }

  /** The renewal: the original claim time, a new expiry. */
  function Renewal(c: Settings, s: State): Op
    requires s.pc.Resumed?
  {
    Bookkeeping(Claim(Ownership(c.id, c.owner, s.pc.claimedAt, s.clock + c.ttlMs), s.clock))
  }

  /** The timer still renews: neither lost nor failed. */
  predicate Renewing(pc: Pc) { pc.Resumed? && !pc.lost && !pc.failed }

  function EndOf(pc: Pc, threw: bool): End
    requires pc.Resumed?
  {
    if pc.failed then RenewalThrew else if threw then ResumeThrew else if pc.lost then OwnershipLost
        else ResumedToTheEnd
  }

  ghost predicate Next(c: Settings, s: State, e: Event, t: State) {
    match e
    case Decides(found) =>
      && s.pc.Deciding?
      && RequestsKeyed(s.store) && CheckpointsKeyed(s.store) && ListsCheckpoints(s.store, c.id, found)
      && var step := Decision(c, s, found);
         t == State(Replay(s.store, step.ops), DecisionPc(step.out, s.clock), s.clock)
    case Wakes => s.pc.Waiting? && t == s.(pc := Deciding)
    case Aborts => (s.pc.Waiting? || s.pc.Deciding?) && t == s.(pc := Stopped(CallerAborted))
    case Renews =>
      && Renewing(s.pc)
      && var renewed := ClaimFires(s.store.books.ownerships, Renewal(c, s).book.ownership, s.clock);
         t == State(Apply(s.store, Renewal(c, s)),
                    if renewed then s.pc.(renewedAt := s.clock) else s.pc.(lost := true), s.clock)
    case RenewalThrows(written) =>
      && Renewing(s.pc)
      && t == State(if written then Apply(s.store, Renewal(c, s)) else s.store, s.pc.(failed := true), s.clock)
    case Settles(threw) =>
      && s.pc.Resumed?
      && t == State(Apply(s.store, Bookkeeping(Release(c.id, c.owner))), Stopped(EndOf(s.pc, threw)), s.clock)
    case PeerWrites(op) => ByPeer(c, s, op) && t == s.(store := Apply(s.store, op))
    case Ticks(ms) => TimerOnTime(c, s.pc, s.clock + ms) && t == s.(clock := s.clock + ms)
  }

  /** The renewal timer is not late. */
  predicate TimerOnTime(c: Settings, pc: Pc, clock: nat) {
    Renewing(pc) ==> clock <= pc.renewedAt + RenewEvery(c.intervalMs, c.ttlMs)
  }

  /** Started at any moment, whatever claims are stored then. */
  ghost predicate Behaviour(c: Settings, states: seq<State>, events: seq<Event>) {
    && |states| == |events| + 1
    && states[0].pc.Deciding?
    && forall i :: 0 <= i < |events| ==> Next(c, states[i], events[i], states[i + 1])
  }

  // --- What the runner holds ---

  function OwnClaim(c: Settings, s: Store): Option<Ownership> {
    if c.id in s.books.ownerships && s.books.ownerships[c.id].ownerId == c.owner then Some(s.books.ownerships[c.id])
        else None
  }

  /** Renewing, the runner owns the request past its next renewal. */
  predicate Held(c: Settings, s: State) {
    (s.pc.Resumed? ==> !s.pc.lost) &&
    (Renewing(s.pc) ==>
       && s.pc.renewedAt <= s.clock
       && TimerOnTime(c, s.pc, s.clock)
       && OwnedUntil(s.store, c.id, c.owner, s.pc.renewedAt + c.ttlMs))
  }

  /** Every decision so far ended the runner at once, and so touched no claim. */
  predicate NoneDecided(states: seq<State>, events: seq<Event>, i: nat)
    requires i <= |events| < |states|
  {
    forall j | 0 <= j < i :: events[j].Decides? ==> states[j + 1].pc.Stopped?
  }

  /** What a decision leaves: a claim taken to resume, none at all, or, when it stops at once, the store as it was. */
  lemma DecideKeeps(c: Settings, s: State, found: seq<Checkpoint>, t: State)
    requires Next(c, s, Decides(found), t)
    ensures Held(c, t)
    ensures t.pc.Resumed? || OwnClaim(c, t.store) == None || (t.pc.Stopped? && t.store == s.store)
  {
    hide Apply, Replay, BeginRecovery, RequestsKeyed, CheckpointsKeyed, ListsCheckpoints;
    HandoffIsSound(s.store, c.id, c.owner, s.clock, c.ttlMs, c.maxRetries, c.digest, found);
  }

  lemma PeerTakesNothing(s: Store, op: Op, c: Settings)
    requires Claims(op, c.id) ==> op.book.ownership.ownerId != c.owner
    ensures OwnClaim(c, Apply(s, op)) == None || OwnClaim(c, Apply(s, op)) == OwnClaim(c, s)
  {}

  /** A claim held while not resumed is one left from before the runner started. */
  predicate Leftover(c: Settings, states: seq<State>, events: seq<Event>, i: nat)
    requires i <= |events| < |states|
  {
    states[i].pc.Resumed? || OwnClaim(c, states[i].store) == None ||
    (OwnClaim(c, states[i].store) == OwnClaim(c, states[0].store) && NoneDecided(states, events, i))
  }

  lemma NextKeepsLeftover(c: Settings, states: seq<State>, events: seq<Event>, i: nat)
    requires Behaviour(c, states, events) && i < |events| && Leftover(c, states, events, i)
    ensures Leftover(c, states, events, i + 1)
  {
    var s, t := states[i], states[i + 1];
    assert Next(c, s, events[i], t);
    match events[i]
    case Decides(found) => DecideKeeps(c, s, found, t);
    case PeerWrites(op) => PeerTakesNothing(s.store, op, c);
    case _ =>
  }

  lemma {:induction false} AlwaysLeftover(c: Settings, states: seq<State>, events: seq<Event>, i: nat)
    requires Behaviour(c, states, events) && i < |states|
    ensures Leftover(c, states, events, i)
  {
    hide Next;
    if i > 0 {
      AlwaysLeftover(c, states, events, i - 1);
      NextKeepsLeftover(c, states, events, i - 1);
    }
  }

  lemma NextKeepsHeld(c: Settings, s: State, e: Event, t: State)
    requires c.ttlMs >= 2
    requires Held(c, s) && Next(c, s, e, t)
    ensures Held(c, t)
  {
    match e
    case Decides(found) => DecideKeeps(c, s, found, t);
    case Renews => assert s.store.books.ownerships[c.id].ownerId == c.owner;
    case PeerWrites(op) =>
      if Renewing(s.pc) {
        hide Apply;
        OwnerStays(s.store, op, c.id, c.owner, s.pc.renewedAt + c.ttlMs);
      }
    case _ =>
  }

  lemma {:induction false} AlwaysHeld(c: Settings, states: seq<State>, events: seq<Event>, i: nat)
    requires c.ttlMs >= 2 && Behaviour(c, states, events) && i < |states|
    ensures Held(c, states[i])
  {
    hide Next;
    if i > 0 {
      AlwaysHeld(c, states, events, i - 1);
      NextKeepsHeld(c, states[i - 1], events[i - 1], states[i]);
    }
  }

  // --- The main results ---

  /** With timers on time the claim is never lost: unless a renewal threw, every renewal comes before the expiry. */
  lemma ClaimIsNeverLost(c: Settings, states: seq<State>, events: seq<Event>, i: nat)
    requires c.ttlMs >= 2 && Behaviour(c, states, events) && i < |states|
    requires states[i].pc.Resumed?
    ensures !states[i].pc.lost
    ensures !states[i].pc.failed ==> OwnedUntil(states[i].store, c.id, c.owner, states[i].clock + 1)
  {
    AlwaysHeld(c, states, events, i);
  }

  /** While resumed and renewing, no peer's claim on the request succeeds. */
  lemma NoPeerTakesOver(c: Settings, states: seq<State>, events: seq<Event>, i: nat, o: Ownership)
    requires c.ttlMs >= 2 && Behaviour(c, states, events) && i < |states|
    requires Renewing(states[i].pc)
    requires o.requestId == c.id && o.ownerId != c.owner
    ensures !ClaimFires(states[i].store.books.ownerships, o, states[i].clock)
  {
    ClaimIsNeverLost(c, states, events, i);
  }

  ghost predicate CanLose(c: Settings) {
    exists states: seq<State>, events: seq<Event>, i: nat ::
      Behaviour(c, states, events) && i < |states| && states[i].pc.Resumed? && states[i].pc.lost
  }

  /** A store with one queued request that nothing stands against. */
  function OneQueued(c: Settings): Store {
    Empty.(requests := map[c.id := Request(c.id, Queued, 0, 1, c.digest, 0, 0, None, None)])
  }

  lemma DecisionResumes(c: Settings)
    ensures var s := State(OneQueued(c), Deciding, 0);
            var step := Decision(c, s, []);
            && RequestsKeyed(s.store) && CheckpointsKeyed(s.store) && ListsCheckpoints(s.store, c.id, [])
            && DecisionPc(step.out, 0) == Resumed(0, 0, false, false)
            && var t := Replay(s.store, step.ops);
               c.id in t.books.ownerships && t.books.ownerships[c.id] == Ownership(c.id, c.owner, 0, c.ttlMs)
  {
    var s := State(OneQueued(c), Deciding, 0);
    var step := Decision(c, s, []);
    ResumesExactlyWhenReady(s.store, c.id, c.owner, 0, c.ttlMs, c.maxRetries, c.digest, []);
    HandoffIsSound(s.store, c.id, c.owner, 0, c.ttlMs, c.maxRetries, c.digest, []);
  }

  /**
   * A time to live below two milliseconds can be lost: by the time its first
   * renewal is due the claim has run out, and a peer may come first.
   */
  lemma ShortClaimsCanBeLost(c: Settings)
    requires c.ttlMs < 2
    ensures CanLose(c)
  {
    hide Replay, BeginRecovery;
    DecisionResumes(c);
    var s0 := State(OneQueued(c), Deciding, 0);
    var s1 := State(Replay(s0.store, Decision(c, s0, []).ops), Resumed(0, 0, false, false), 0);
    var s2 := s1.(clock := 1);
    var claim := Bookkeeping(Claim(Ownership(c.id, c.owner + "'", 1, 3), 1));
    var s3 := s2.(store := Apply(s2.store, claim));
    assert |c.owner + "'"| == |c.owner| + 1;
    assert ByPeer(c, s2, claim);
    var s4 := State(Apply(s3.store, Renewal(c, s3)), s3.pc.(lost := true), 1);
    var states, events := [s0, s1, s2, s3, s4], [Decides([]), Ticks(1), PeerWrites(claim), Renews];
    assert Next(c, s0, Decides([]), s1) && Next(c, s1, Ticks(1), s2);
    assert Next(c, s2, PeerWrites(claim), s3) && Next(c, s3, Renews, s4);
    assert Behaviour(c, states, events) && states[4].pc.lost;
  }

  /** With timers on time, a claim can be lost if and only if its time to live is below two milliseconds. */
  lemma LosesExactlyWhenShort(c: Settings)
    ensures CanLose(c) <==> c.ttlMs < 2
  {
    hide Behaviour;
    if c.ttlMs < 2 {
      ShortClaimsCanBeLost(c);
    } else if CanLose(c) {
      var states: seq<State>, events: seq<Event>, i: nat :| Behaviour(c, states, events) && i < |states|
          && states[i].pc.Resumed? && states[i].pc.lost;
      ClaimIsNeverLost(c, states, events, i);
    }
  }

  /**
   * However it stops, by returning or by throwing, the runner leaves no claim
   * it took: it holds none, or the very one left from before it started, which
   * no decision of it touched because none got past a missing or terminal request.
   */
  lemma StoppedHoldsNothing(c: Settings, states: seq<State>, events: seq<Event>, i: nat)
    requires Behaviour(c, states, events) && i < |states|
    requires states[i].pc.Stopped?
    ensures || OwnClaim(c, states[i].store) == None
            || (OwnClaim(c, states[i].store) == OwnClaim(c, states[0].store) && NoneDecided(states, events, i))
    ensures OwnClaim(c, states[0].store) == None ==> OwnClaim(c, states[i].store) == None
  {
    AlwaysLeftover(c, states, events, i);
  }

  /** A left-over claim does survive a runner aborted before it decides, or that finds its request gone or terminal. */
  lemma LeftoverSurvives(c: Settings, s: State, e: Event, t: State)
    requires s.pc.Deciding? && Next(c, s, e, t)
    requires e.Aborts?
             || (e.Decides? && (c.id !in s.store.requests || Terminal(s.store.requests[c.id].stage)))
    ensures t.pc == Stopped(if e.Aborts? then CallerAborted else Done)
    ensures t.store == s.store && OwnClaim(c, t.store) == OwnClaim(c, s.store)
  {}

  /** Started on this store, the runner can come back to its caller with a claim of its owner stored. */
  ghost predicate CanStopHolding(c: Settings, s: Store) {
    exists states: seq<State>, events: seq<Event>, i: nat ::
      Behaviour(c, states, events) && states[0].store == s && i < |states|
      && states[i].pc.Stopped? && OwnClaim(c, states[i].store) != None
  }

  /** The runner can stop with a claim stored if and only if its owner had left one before it started. */
  lemma StopsHoldingExactlyWhenLeft(c: Settings, s: Store)
    ensures CanStopHolding(c, s) <==> OwnClaim(c, s) != None
  {
    if OwnClaim(c, s) != None {
      var states, events := [State(s, Deciding, 0), State(s, Stopped(CallerAborted), 0)], [Aborts];
      assert Next(c, states[0], events[0], states[1]);
      assert Behaviour(c, states, events) && states[1].pc.Stopped?;
    } else if CanStopHolding(c, s) {
      var states: seq<State>, events: seq<Event>, i: nat :|
        Behaviour(c, states, events) && states[0].store == s && i < |states|
        && states[i].pc.Stopped? && OwnClaim(c, states[i].store) != None;
      StoppedHoldsNothing(c, states, events, i);
    }
  }

  /** The caller is told of a resumed execution only if no renewal was refused or threw. */
  lemma ResumedMeansKept(c: Settings, s: State, threw: bool, t: State)
    requires Next(c, s, Settles(threw), t)
    ensures t.pc.end == ResumedToTheEnd <==> Renewing(s.pc) && !threw
    ensures t.pc.end == OwnershipLost ==> s.pc.lost
    ensures s.pc.failed ==> t.pc.end == RenewalThrew
  {}
}
