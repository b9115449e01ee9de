/**
 * The recovery claim: at most one live owner, whoever claims, renews and
 * releases. Nothing here needs the discipline of the coordinator.
 */
module RecoveryOwnership {
  import opened DurableTypes
  import opened Store

  function StoreAt(log: seq<Op>, n: nat): Store
    requires n <= |log|
  {
    Replay(Empty, log[..n])
  }

  lemma StoreNext(log: seq<Op>, n: nat)
    requires n < |log|
    ensures StoreAt(log, n + 1) == Apply(StoreAt(log, n), log[n])
  {
    assert log[..n + 1] == log[..n] + [log[n]];
    ReplaySnoc(Empty, log[..n], log[n]);
  }

  predicate Claims(op: Op, id: RequestId) {
    op.Bookkeeping? && op.book.Claim? && op.book.ownership.requestId == id
  }

  /** Write `i` claims, or renews the claim of, this request and succeeds. */
  predicate ClaimedAt(log: seq<Op>, i: nat, id: RequestId)
    requires i < |log|
  {
    Claims(log[i], id) && ClaimFires(StoreAt(log, i).books.ownerships, log[i].book.ownership, log[i].book.now)
  }

  predicate ReleasedAt(log: seq<Op>, i: nat, id: RequestId, owner: OwnerId)
    requires i < |log|
  {
    && log[i].Bookkeeping? && log[i].book.Release? && log[i].book.id == id && log[i].book.ownerId == owner
  }

  predicate OwnedUntil(s: Store, id: RequestId, owner: OwnerId, expiry: nat) {
    && id in s.books.ownerships
    && s.books.ownerships[id].ownerId == owner
    && expiry <= s.books.ownerships[id].expiresAt
  }

  /** Between `i` and `j` the owner does not release, and never shortens its claim. */
  predicate KeepsClaim(log: seq<Op>, i: nat, j: nat, id: RequestId, owner: OwnerId, expiry: nat)
    requires i <= j <= |log|
  {
    forall k :: i <= k < j ==>
      && !ReleasedAt(log, k, id, owner)
      && (Claims(log[k], id) && log[k].book.ownership.ownerId == owner ==> expiry <= log[k].book.ownership.expiresAt)
  }

  /** The claims on this request are made with a clock that does not run backwards. */
  predicate ClockForward(log: seq<Op>, id: RequestId) {
    forall i, j :: 0 <= i < j < |log| && Claims(log[i], id) && Claims(log[j], id) ==> log[i].book.now <= log[j].book.now
  }

  /** One write keeps the owner in place, unless someone claims at or after the expiry. */
  lemma OwnerStays(s: Store, op: Op, id: RequestId, owner: OwnerId, expiry: nat)
    requires OwnedUntil(s, id, owner, expiry)
    requires !(op.Bookkeeping? && op.book.Release? && op.book.id == id && op.book.ownerId == owner)
    requires Claims(op, id) && op.book.ownership.ownerId == owner ==> expiry <= op.book.ownership.expiresAt
    ensures OwnedUntil(Apply(s, op), id, owner, expiry) || (Claims(op, id) && expiry <= op.book.now)
  {}

  lemma {:induction false} OwnedOrExpired(log: seq<Op>, i: nat, j: nat, id: RequestId, owner: OwnerId, expiry: nat)
    requires i <= j <= |log|
    requires OwnedUntil(StoreAt(log, i), id, owner, expiry)
    requires KeepsClaim(log, i, j, id, owner, expiry)
    ensures OwnedUntil(StoreAt(log, j), id, owner, expiry)
            || exists k :: i <= k < j && Claims(log[k], id) && expiry <= log[k].book.now
    decreases j
  {
    if i < j {
      hide Apply, Replay;
      OwnedOrExpired(log, i, j - 1, id, owner, expiry);
      if OwnedUntil(StoreAt(log, j - 1), id, owner, expiry) {
        StoreNext(log, j - 1);
        OwnerStays(StoreAt(log, j - 1), log[j - 1], id, owner, expiry);
      }
    }
  }

  /**
   * Between an owner's successful claim and its release, another owner's claim
   * succeeds only at or after the expiry the first one was granted.
   */
  lemma ClaimsExclude(log: seq<Op>, i: nat, j: nat, id: RequestId)
    requires i < j < |log| && ClockForward(log, id)
    requires ClaimedAt(log, i, id) && ClaimedAt(log, j, id)
    requires log[j].book.ownership.ownerId != log[i].book.ownership.ownerId
    requires KeepsClaim(log, i + 1, j, id, log[i].book.ownership.ownerId, log[i].book.ownership.expiresAt)
    ensures log[i].book.ownership.expiresAt <= log[j].book.now
  {
    hide Replay;
    var o := log[i].book.ownership;
    StoreNext(log, i);
    OwnedOrExpired(log, i + 1, j, id, o.ownerId, o.expiresAt);
  }

  /** An owner that released holds no claim, until it claims again. */
  lemma ReleaseLetsGo(s: Store, id: RequestId, owner: OwnerId)
    ensures var t := Apply(s, Bookkeeping(Release(id, owner)));
            && (id in t.books.ownerships ==> t.books.ownerships[id].ownerId != owner)
            && t.books.ownerships - {id} == s.books.ownerships - {id}
            && (id in s.books.ownerships && s.books.ownerships[id].ownerId != owner ==> t == s)
  {}
}
