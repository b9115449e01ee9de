/** What a stretch looks up can always be found: a listing, a pick, an identifier nobody has used. */
module Listings {
  import opened Options
  import opened DurableTypes
  import opened Store
  import opened Steps
  import opened Tallies

  lemma {:induction false} LengthBound(used: set<string>) returns (n: nat)
    ensures forall s :: s in used ==> |s| < n
    decreases used
  {
    if used == {} {
      n := 0;
    } else {
      var s :| s in used;
      var m := LengthBound(used - {s});
      n := if |s| < m then m else |s| + 1;
    }
  }

  /** There is always another identifier. */
  lemma FreshIdentifier(used: set<string>) returns (s: string)
    ensures s !in used
  {
    var n := LengthBound(used);
    s := seq(n, _ => 'f');
  }

  lemma {:induction false} Enumerated(ids: set<LeaseId>) returns (list: seq<LeaseId>)
    ensures forall x :: x in list <==> x in ids
    decreases ids
  {
    if ids == {} {
      list := [];
    } else {
      var x :| x in ids;
      var rest := Enumerated(ids - {x});
      list := [x] + rest;
    }
  }

  /** The leases of a generation can be listed. */
  lemma ListingExists(s: Store, w: WorkerId, g: Generation) returns (ids: seq<LeaseId>)
    ensures Lists(s, w, g, ids)
  {
    ids := Enumerated(set r | r in s.leases && s.leases[r].workerId == w && s.leases[r].generation == g ::
                      s.leases[r].leaseId);
    forall lease ensures lease in ids <==> HoldsLease(s, w, g, lease) {}
  }

  lemma {:induction false} BestAmong(workers: map<WorkerId, Worker>, among: set<WorkerId>) returns (best: WorkerId)
    requires among != {} && among <= workers.Keys
    ensures best in among && forall w :: w in among ==> AtLeastAsGood(workers[best], workers[w])
    decreases among
  {
    var w :| w in among;
    if among == {w} {
      best := w;
    } else {
      best := BestAmong(workers, among - {w});
      if !AtLeastAsGood(workers[best], workers[w]) {
        best := w;
      }
    }
  }

  /** The registry always has an answer. */
  lemma PickExists(s: Store, requiredVramMB: nat) returns (pick: Option<WorkerId>)
    ensures Picked(s, requiredVramMB, pick)
  {
    var candidates := set w | w in s.workers && Candidate(s.workers[w], requiredVramMB);
    if candidates == {} {
      pick := None;
      forall w | w in s.workers ensures !Candidate(s.workers[w], requiredVramMB) {
        assert w !in candidates;
      }
    } else {
      var best := BestAmong(s.workers, candidates);
      pick := Some(best);
    }
  }

  lemma PickIsStored(s: Store, requiredVramMB: nat, pick: Option<WorkerId>)
    requires Picked(s, requiredVramMB, pick)
    ensures pick.Some? ==> pick.value in s.workers
  {}

  /** The leases of the generation a worker is stored under can be listed. */
  lemma OwnListingExists(s: Store, w: WorkerId) returns (ids: seq<LeaseId>)
    ensures ListsOwn(s, w, ids)
  {
    ids := ListingExists(s, w, if w in s.workers then s.workers[w].generation else "");
  }

  lemma {:induction false} ValuesListed<K, V>(m: map<K, V>) returns (list: seq<V>)
    ensures multiset(list) == Values(m)
    decreases |m|
  {
    if m == map[] {
      list := [];
    } else {
      var k :| k in m;
      ValuesSplit(m, k);
      Smaller(m, k);
      var rest := ValuesListed(m - {k});
      list := [m[k]] + rest;
    }
  }

  /** The checkpoints of a request can be listed. */
  lemma CheckpointListingExists(s: Store, id: RequestId) returns (cs: seq<Checkpoint>)
    ensures ListsCheckpoints(s, id, cs)
  {
    cs := ValuesListed(OwnedBy(s.checkpoints, id));
  }
}
