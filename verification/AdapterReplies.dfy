/**
 * What the answers of a repository mean: the reads together tell every record, and
 * the answer to a write tells what the write did.
 */
module AdapterReplies {
  import opened RequestStages
  import opened DurableTypes
  import opened Store
  import opened InMemoryRepositories
  import opened AdapterRefinement
  import opened Tallies

  /** Two stores that answer every read alike hold the same records. */
  lemma RepliesTellTheRecords(s: Store, t: Store)
    requires forall read: Call :: Reads(read) ==> Reply(s, read) == Reply(t, read)
    ensures s.requests == t.requests && s.leases == t.leases && s.checkpoints == t.checkpoints
    ensures s.results == t.results && s.cancellations == t.cancellations && s.workers == t.workers
    ensures s.books.keys == t.books.keys && s.books.ownerships == t.books.ownerships
    ensures s.books.cursors == t.books.cursors
    ensures forall id :: (if id in s.books.attempts then s.books.attempts[id] else [])
                      == (if id in t.books.attempts then t.books.attempts[id] else [])
  {
    hide Values, OwnedBy;
    forall id ensures id in s.requests <==> id in t.requests
              ensures id in s.requests ==> s.requests[id] == t.requests[id] {
      assert Reply(s, ReadRequest(id)) == Reply(t, ReadRequest(id));
    }
    forall id ensures id in s.leases <==> id in t.leases
              ensures id in s.leases ==> s.leases[id] == t.leases[id] {
      assert Reply(s, ReadLease(id)) == Reply(t, ReadLease(id));
    }
    forall k: (RequestId, nat) ensures k in s.checkpoints <==> k in t.checkpoints
              ensures k in s.checkpoints ==> s.checkpoints[k] == t.checkpoints[k] {
      assert Reply(s, ReadCheckpoint(k.0, k.1)) == Reply(t, ReadCheckpoint(k.0, k.1));
    }
    forall id ensures id in s.results <==> id in t.results
              ensures id in s.results ==> s.results[id] == t.results[id] {
      assert Reply(s, ReadResult(id)) == Reply(t, ReadResult(id));
    }
    forall id ensures id in s.cancellations <==> id in t.cancellations
              ensures id in s.cancellations ==> s.cancellations[id] == t.cancellations[id] {
      assert Reply(s, ReadCancellation(id)) == Reply(t, ReadCancellation(id));
    }
    forall w ensures w in s.workers <==> w in t.workers
             ensures w in s.workers ==> s.workers[w] == t.workers[w] {
      assert Reply(s, ReadWorker(w)) == Reply(t, ReadWorker(w));
    }
    BookRepliesTell(s, t);
  }

  lemma BookRepliesTell(s: Store, t: Store)
    requires forall read: Call :: Reads(read) ==> Reply(s, read) == Reply(t, read)
    ensures s.books.keys == t.books.keys && s.books.ownerships == t.books.ownerships
    ensures s.books.cursors == t.books.cursors
    ensures forall id :: (if id in s.books.attempts then s.books.attempts[id] else [])
                      == (if id in t.books.attempts then t.books.attempts[id] else [])
  {
    hide Values, OwnedBy;
    var a, b := s.books, t.books;
    forall key ensures key in a.keys <==> key in b.keys
               ensures key in a.keys ==> a.keys[key] == b.keys[key] {
      assert Reply(s, ReadMapping(key)) == Reply(t, ReadMapping(key));
    }
    forall id ensures id in a.ownerships <==> id in b.ownerships
              ensures id in a.ownerships ==> a.ownerships[id] == b.ownerships[id] {
      assert Reply(s, ReadOwnership(id)) == Reply(t, ReadOwnership(id));
    }
    forall id ensures id in a.cursors <==> id in b.cursors
              ensures id in a.cursors ==> a.cursors[id] == b.cursors[id] {
      assert Reply(s, ReadCursor(id)) == Reply(t, ReadCursor(id));
    }
    forall id ensures (if id in a.attempts then a.attempts[id] else [])
                   == (if id in b.attempts then b.attempts[id] else []) {
      assert Reply(s, ReadAttempts(id)) == Reply(t, ReadAttempts(id));
    }
  }

  /** The request has this stage now, and had that one before. */
  predicate Moved(s: Store, t: Store, id: RequestId, from: Stage, to: Stage) {
    id in s.requests && s.requests[id].stage == from && id in t.requests && t.requests[id].stage == to
  }

  /** A transition is confirmed exactly when it was made from the expected stage. */
  lemma TransitionsAreTold(s: Store, id: RequestId, expected: Stage, next: Stage)
    ensures var op := Requests(Transition(id, expected, next));
            var t, answer := Apply(s, op), Reply(s, Issue(op));
            && answer.Verdict? && (answer.ok <==> Moved(s, t, id, expected, next)) && (!answer.ok ==> t == s)
  {}

  /**
   * A checkpoint is reported stored exactly when its slot changed, and otherwise unchanged exactly
   * when what is there has its digest.
   */
  lemma CheckpointsAreTold(s: Store, c: Checkpoint)
    ensures var op, slot := Checkpoints(PutCheckpoint(c)), (c.requestId, c.segment);
            var t, answer := Apply(s, op), Reply(s, Issue(op));
            && slot in t.checkpoints && answer.StoreAnswer? && (answer.stored == Stored <==> t != s)
            && (answer.stored == Stored ==> t.checkpoints[slot] == c)
            && (answer.stored == Unchanged <==>
                  slot in s.checkpoints && t.checkpoints[slot].payloadDigest == c.payloadDigest)
  {
    var op, slot := Checkpoints(PutCheckpoint(c)), (c.requestId, c.segment);
    assert slot in Apply(s, op).checkpoints;
  }

  /** A completion is reported committed exactly when there was no result and the stage was the expected one. */
  lemma CompletionsAreTold(s: Store, id: RequestId, expected: Stage, result: Result)
    ensures var op := Commit(id, expected, result);
            var t, answer := Apply(s, op), Reply(s, Issue(op));
            && answer.CommitAnswer?
            && (answer.completion == DuplicateResult <==> id in s.results)
            && (answer.completion == Committed <==>
                  id !in s.results && id in s.requests && s.requests[id].stage == expected)
            && (answer.completion != Committed ==> t == s)
            && (answer.completion == Committed && result.requestId == id ==>
                  id in t.results && t.results[id] == result && Moved(s, t, id, expected, Completed))
  {}

  /** A claim is refused exactly while a peer's is live; otherwise the claimant owns the request as claimed. */
  lemma ClaimsAreTold(s: Store, o: Ownership, now: nat)
    ensures var op, owned := Bookkeeping(Claim(o, now)), s.books.ownerships;
            var t, answer := Apply(s, op), Reply(s, Issue(op));
            && answer.ClaimAnswer?
            && (answer.claim == RefusedByPeer <==>
                  o.requestId in owned && owned[o.requestId].ownerId != o.ownerId
                      && now < owned[o.requestId].expiresAt)
            && (answer.claim == RefusedByPeer ==> t == s)
            && (answer.claim != RefusedByPeer ==> t.books.ownerships == owned[o.requestId := o])
            && (answer.claim == Renewed <==> o.requestId in owned && owned[o.requestId].ownerId == o.ownerId)
  {}

  /** A release is confirmed exactly when the owner's claim went, and a binding when the key then names the request. */
  lemma ReleasesAndBindingsAreTold(s: Store, id: RequestId, owner: OwnerId, key: IdempotencyKey)
    ensures var op := Bookkeeping(Release(id, owner));
            var t, answer := Apply(s, op), Reply(s, Issue(op));
            && answer.Verdict? && (answer.ok <==> t != s)
            && (answer.ok <==> id in s.books.ownerships && s.books.ownerships[id].ownerId == owner)
            && (answer.ok ==> t.books.ownerships == s.books.ownerships - {id})
    ensures var op := Bookkeeping(BindKey(key, id));
            var t, answer := Apply(s, op), Reply(s, Issue(op));
            answer.Verdict? && (answer.ok <==> key in t.books.keys && t.books.keys[key] == id)
  {
    if ReleaseFires(s.books.ownerships, id, owner) {
      assert id !in Apply(s, Bookkeeping(Release(id, owner))).books.ownerships;
    }
  }
}
