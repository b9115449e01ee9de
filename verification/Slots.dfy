/** Checkpoint slots held under their string names. */
module Slots {
  import opened DurableTypes
  import opened Store
  import opened StorageKeys
  import opened Tallies

  /** `m` holds exactly the slots, each under its name. */
  ghost predicate Named(m: map<string, Checkpoint>, slots: map<(RequestId, nat), Checkpoint>) {
    && (forall k :: k in slots ==> SlotName(k.0, k.1) in m && m[SlotName(k.0, k.1)] == slots[k])
    && (forall s :: s in m ==> exists k :: k in slots && SlotName(k.0, k.1) == s)
  }

  lemma NamedLookup(m: map<string, Checkpoint>, slots: map<(RequestId, nat), Checkpoint>, id: RequestId, segment: nat)
    requires Named(m, slots)
    ensures SlotName(id, segment) in m <==> (id, segment) in slots
    ensures (id, segment) in slots ==> m[SlotName(id, segment)] == slots[(id, segment)]
  {
    if SlotName(id, segment) in m {
      var k :| k in slots && SlotName(k.0, k.1) == SlotName(id, segment);
      SlotNameIsInjective(k.0, k.1, id, segment);
    }
  }

  lemma NamedPut(m: map<string, Checkpoint>, slots: map<(RequestId, nat), Checkpoint>, c: Checkpoint)
    requires Named(m, slots) && (c.requestId, c.segment) !in slots
    ensures Named(m[SlotName(c.requestId, c.segment) := c], slots[(c.requestId, c.segment) := c])
  {
    var n, t := m[SlotName(c.requestId, c.segment) := c], slots[(c.requestId, c.segment) := c];
    forall k | k in t ensures SlotName(k.0, k.1) in n && n[SlotName(k.0, k.1)] == t[k] {
      if SlotName(k.0, k.1) == SlotName(c.requestId, c.segment) {
        SlotNameIsInjective(k.0, k.1, c.requestId, c.segment);
      }
    }
    forall s | s in n ensures exists k :: k in t && SlotName(k.0, k.1) == s {
      if s == SlotName(c.requestId, c.segment) {
        assert (c.requestId, c.segment) in t;
      } else {
        var k :| k in slots && SlotName(k.0, k.1) == s;
        assert k in t;
      }
    }
  }

  /** Dropping names and dropping the slots they name go together. */
  lemma NamedDrop(m: map<string, Checkpoint>, slots: map<(RequestId, nat), Checkpoint>,
                  n: map<string, Checkpoint>, t: map<(RequestId, nat), Checkpoint>)
    requires Named(m, slots)
    requires forall s :: s in n ==> s in m && n[s] == m[s]
    requires forall k :: k in t ==> k in slots && t[k] == slots[k]
    requires forall k :: k in slots ==> (k in t <==> SlotName(k.0, k.1) in n)
    ensures Named(n, t)
  {
    forall s | s in n ensures exists k :: k in t && SlotName(k.0, k.1) == s {
      var k :| k in slots && SlotName(k.0, k.1) == s;
      assert k in t;
    }
  }

  lemma NamedDelete(m: map<string, Checkpoint>, slots: map<(RequestId, nat), Checkpoint>, id: RequestId, segment: nat)
    requires Named(m, slots)
    ensures Named(m - {SlotName(id, segment)}, ApplyCheckpoint(slots, DeleteCheckpoint(id, segment)))
  {
    var n, t := m - {SlotName(id, segment)}, slots - {(id, segment)};
    forall k | k in slots ensures k in t <==> SlotName(k.0, k.1) in n {
      if SlotName(k.0, k.1) == SlotName(id, segment) {
        SlotNameIsInjective(k.0, k.1, id, segment);
      }
    }
    NamedDrop(m, slots, n, t);
  }

  function WithoutPrefix(m: map<string, Checkpoint>, prefix: string): map<string, Checkpoint> {
    map s | s in m && !(prefix <= s) :: m[s]
  }

  lemma NamedDeleteAll(m: map<string, Checkpoint>, slots: map<(RequestId, nat), Checkpoint>, id: RequestId)
    requires Named(m, slots)
    ensures Named(WithoutPrefix(m, id + ":"), ApplyCheckpoint(slots, DeleteCheckpoints(id)))
  {
    var n, t := WithoutPrefix(m, id + ":"), ApplyCheckpoint(slots, DeleteCheckpoints(id));
    forall k | k in slots ensures k in t <==> SlotName(k.0, k.1) in n {
      PrefixSelects(id, k.0, k.1);
    }
    NamedDrop(m, slots, n, t);
  }

  function Unexpired(m: map<string, Checkpoint>, now: nat): map<string, Checkpoint> {
    map s | s in m && now < m[s].createdAt + m[s].ttlMs :: m[s]
  }

  lemma NamedCollect(m: map<string, Checkpoint>, slots: map<(RequestId, nat), Checkpoint>, now: nat)
    requires Named(m, slots)
    ensures Named(Unexpired(m, now), ApplyCheckpoint(slots, CollectExpired(now)))
  {
    NamedDrop(m, slots, Unexpired(m, now), ApplyCheckpoint(slots, CollectExpired(now)));
  }

  /** The same entries taken from both have the same values, each as often. */
  lemma NamedTally(m: map<string, Checkpoint>, slots: map<(RequestId, nat), Checkpoint>,
                   n: map<string, Checkpoint>, t: map<(RequestId, nat), Checkpoint>)
    requires Named(m, slots)
    requires forall s :: s in n ==> s in m && n[s] == m[s]
    requires forall k :: k in t ==> k in slots && t[k] == slots[k]
    requires forall k :: k in slots ==> (k in t <==> SlotName(k.0, k.1) in n)
    ensures Values(t) == Values(n)
  {
    var name := (k: (RequestId, nat)) => SlotName(k.0, k.1);
    forall s | s in n ensures exists k :: k in t && name(k) == s {
      var k :| k in slots && SlotName(k.0, k.1) == s;
      assert k in t && name(k) == s;
    }
    forall j, k | j in t && k in t && name(j) == name(k) ensures j == k {
      SlotNameIsInjective(j.0, j.1, k.0, k.1);
    }
    ValuesRenamed(t, n, name);
  }

  lemma NamedOwn(m: map<string, Checkpoint>, slots: map<(RequestId, nat), Checkpoint>, id: RequestId)
    requires Named(m, slots)
    ensures Values(OwnedBy(m, id)) == Values(OwnedBy(slots, id))
  {
    NamedTally(m, slots, OwnedBy(m, id), OwnedBy(slots, id));
  }

  lemma NamedPastTtl(m: map<string, Checkpoint>, slots: map<(RequestId, nat), Checkpoint>, now: nat)
    requires Named(m, slots)
    ensures Values(PastTtl(m, now)) == Values(PastTtl(slots, now))
  {
    NamedTally(m, slots, PastTtl(m, now), PastTtl(slots, now));
  }
}
