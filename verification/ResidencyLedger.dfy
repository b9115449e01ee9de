/** Which worker holds which segment artifact, and how many bytes that is. */
module ResidencyLedgers {
  import opened Options
  import opened DurableTypes
  import opened SafeIntegers
  import opened Windows

  /** The bytes of the segments in `held`, within a window. */
  function HeldBytes(sizes: seq<nat>, held: set<nat>, lo: nat, hi: nat): nat
    requires lo <= hi <= |sizes|
    decreases hi - lo
  {
    if lo == hi then 0 else HeldBytes(sizes, held, lo, hi - 1) + (if hi - 1 in held then sizes[hi - 1] else 0)
  }

  /** The segments of a window that are not held, in order. */
  function Missing(held: set<nat>, lo: nat, hi: nat): seq<nat>
    requires lo <= hi
    decreases hi - lo
  {
    if lo == hi then [] else Missing(held, lo, hi - 1) + (if hi - 1 in held then [] else [hi - 1])
  }

  function SizeAt(sizes: seq<nat>, k: nat): nat { if k < |sizes| then sizes[k] else 0 }

  function BytesOf(sizes: seq<nat>, list: seq<nat>): nat {
    if list == [] then 0 else BytesOf(sizes, list[..|list| - 1]) + SizeAt(sizes, list[|list| - 1])
  }

  lemma {:induction false} MissingIsExact(held: set<nat>, lo: nat, hi: nat)
    requires lo <= hi
    ensures forall k :: k in Missing(held, lo, hi) <==> lo <= k < hi && k !in held
    ensures forall i, j :: 0 <= i < j < |Missing(held, lo, hi)| ==> Missing(held, lo, hi)[i] < Missing(held, lo, hi)[j]
    ensures forall i :: 0 <= i < |Missing(held, lo, hi)| ==> lo <= Missing(held, lo, hi)[i] < hi
    decreases hi - lo
  {
    if lo < hi {
      MissingIsExact(held, lo, hi - 1);
    }
  }

  lemma BytesOfAppend(sizes: seq<nat>, list: seq<nat>, k: nat)
    ensures BytesOf(sizes, list + [k]) == BytesOf(sizes, list) + SizeAt(sizes, k)
  {
    assert (list + [k])[..|list|] == list;
  }

  lemma BytesOfNothing(sizes: seq<nat>)
    ensures BytesOf(sizes, []) == 0
  {}

  /** Nothing is lost: what is held and what is missing make up the window. */
  lemma {:induction false} BytesAreConserved(sizes: seq<nat>, held: set<nat>, lo: nat, hi: nat)
    requires lo <= hi <= |sizes|
    ensures HeldBytes(sizes, held, lo, hi) + BytesOf(sizes, Missing(held, lo, hi)) == Sum(sizes, lo, hi)
    decreases hi - lo
  {
    hide BytesOf;
    if lo == hi {
      BytesOfNothing(sizes);
    } else {
      BytesAreConserved(sizes, held, lo, hi - 1);
      var rest := Missing(held, lo, hi - 1);
      assert rest + [] == rest;
      BytesOfAppend(sizes, rest, hi - 1);
    }
  }

  /** No sum over any window leaves the safe integers, once the total is inside them. */
  lemma WindowsAreSafe(sizes: seq<nat>, held: set<nat>, lo: nat, hi: nat)
    requires lo <= hi <= |sizes| && Sum(sizes, 0, |sizes|) <= MAX_SAFE_INTEGER
    ensures Sum(sizes, lo, hi) <= MAX_SAFE_INTEGER
    ensures HeldBytes(sizes, held, lo, hi) <= MAX_SAFE_INTEGER
    ensures BytesOf(sizes, Missing(held, lo, hi)) <= MAX_SAFE_INTEGER
  {
    SumShrinks(sizes, 0, |sizes|, lo, hi);
    BytesAreConserved(sizes, held, lo, hi);
  }

  /** A window entirely held has its full size. */
  lemma {:induction false} AllHeld(sizes: seq<nat>, held: set<nat>, lo: nat, hi: nat)
    requires lo <= hi <= |sizes| && forall k :: lo <= k < hi ==> k in held
    ensures HeldBytes(sizes, held, lo, hi) == Sum(sizes, lo, hi)
    decreases hi - lo
  {
    if lo < hi {
      AllHeld(sizes, held, lo, hi - 1);
    }
  }

  /** The constructor's running total: refused before it could leave the safe integers. */
  method MeasureTotal(sizes: seq<nat>) returns (total: Option<nat>)
    requires forall i :: 0 <= i < |sizes| ==> sizes[i] <= MAX_SAFE_INTEGER
    ensures total == if Sum(sizes, 0, |sizes|) <= MAX_SAFE_INTEGER then Some(Sum(sizes, 0, |sizes|)) else None
  {
    var measured := 0;
    for i := 0 to |sizes|
      invariant measured == Sum(sizes, 0, i) <= MAX_SAFE_INTEGER
    {
      if measured > MAX_SAFE_INTEGER - sizes[i] {
        SumShrinks(sizes, 0, |sizes|, 0, i + 1);
        return None;
      }
      measured := measured + sizes[i];
    }
    return Some(measured);
  }

  class ArtifactResidencyLedger {
    const sizes: seq<nat>
    var residentByWorker: map<WorkerId, set<nat>>

    constructor (sizes: seq<nat>)
      requires sizes != [] && Sum(sizes, 0, |sizes|) <= MAX_SAFE_INTEGER
      ensures this.sizes == sizes && residentByWorker == map[] && Valid()
    {
      this.sizes := sizes;
      residentByWorker := map[];
    }

    /** Only known segments are held, and no worker is kept with nothing. */
    predicate Valid()
      reads this
    {
      && Sum(sizes, 0, |sizes|) <= MAX_SAFE_INTEGER
      && forall w :: w in residentByWorker ==>
           residentByWorker[w] != {} && forall k :: k in residentByWorker[w] ==> k < |sizes|
    }

    function HeldBy(w: WorkerId): set<nat>
      reads this
    {
      if w in residentByWorker then residentByWorker[w] else {}
    }

    predicate InRange(lo: int, hi: int) { 0 <= lo <= hi < |sizes| }

    /** Replace one worker's inventory; an unknown index refuses the whole list. */
    method SynchronizeWorker(w: WorkerId, indexes: seq<nat>) returns (ok: bool)
      requires Valid()
      modifies this
      ensures Valid()
      ensures ok <==> forall i :: 0 <= i < |indexes| ==> indexes[i] < |sizes|
      ensures ok ==> HeldBy(w) == set i | 0 <= i < |indexes| :: indexes[i]
      ensures !ok ==> residentByWorker == old(residentByWorker)
      ensures forall other :: other != w ==> HeldBy(other) == old(HeldBy(other))
    {
      var next: set<nat> := {};
      for i := 0 to |indexes|
        invariant forall k :: 0 <= k < i ==> indexes[k] < |sizes|
        invariant next == set k | 0 <= k < i :: indexes[k]
      {
        if indexes[i] >= |sizes| { return false; }
        next := next + {indexes[i]};
      }
      if next == {} {
        residentByWorker := residentByWorker - {w};
      } else {
        residentByWorker := residentByWorker[w := next];
      }
      return true;
    }

    method MarkResident(w: WorkerId, segment: nat) returns (ok: bool)
      requires Valid()
      modifies this
      ensures Valid() && ok == (segment < |sizes|)
      ensures residentByWorker == if ok then old(residentByWorker)[w := old(HeldBy(w)) + {segment}]
                                  else old(residentByWorker)
    {
      if segment >= |sizes| { return false; }
      residentByWorker := residentByWorker[w := HeldBy(w) + {segment}];
      return true;
    }

    /** The whole range is checked before anything is marked. */
    method MarkResidentRange(w: WorkerId, lo: int, hi: int) returns (ok: bool)
      requires Valid()
      modifies this
      ensures Valid() && ok == InRange(lo, hi)
      ensures ok ==> forall k :: k in HeldBy(w) <==> k in old(HeldBy(w)) || lo <= k <= hi
      ensures !ok ==> residentByWorker == old(residentByWorker)
      ensures forall other :: other != w ==> HeldBy(other) == old(HeldBy(other))
    {
      if !InRange(lo, hi) { return false; }
      for index := lo to hi + 1
        invariant Valid()
        invariant forall k :: k in HeldBy(w) <==> k in old(HeldBy(w)) || lo <= k < index
        invariant forall other :: other != w ==> HeldBy(other) == old(HeldBy(other))
      {
        var _ := MarkResident(w, index);
      }
      return true;
    }

    /** An unknown segment is an error; otherwise the answer says whether it was held. */
    method MarkEvicted(w: WorkerId, segment: nat) returns (ok: bool, removed: bool)
      requires Valid()
      modifies this
      ensures Valid() && ok == (segment < |sizes|) && removed == (segment in old(HeldBy(w)))
      ensures HeldBy(w) == old(HeldBy(w)) - {segment}
      ensures !ok ==> residentByWorker == old(residentByWorker)
      ensures forall other :: other != w ==> HeldBy(other) == old(HeldBy(other))
    {
      if segment >= |sizes| { return false, false; }
      if w !in residentByWorker { return true, false; }
      ok, removed := true, segment in residentByWorker[w];
      var rest := residentByWorker[w] - {segment};
      if rest == {} {
        residentByWorker := residentByWorker - {w};
      } else {
        residentByWorker := residentByWorker[w := rest];
      }
    }

    method ClearWorker(w: WorkerId) returns (known: bool)
      requires Valid()
      modifies this
      ensures Valid() && known == (w in old(residentByWorker)) && HeldBy(w) == {}
      ensures forall other :: other != w ==> HeldBy(other) == old(HeldBy(other))
    {
      known := w in residentByWorker;
      residentByWorker := residentByWorker - {w};
    }

    /** How far the held segments reach without a gap, at most `maximum` far. */
    method ResidentPrefixLength(w: WorkerId, start: nat, maximum: nat) returns (length: nat)
      requires Valid() && start < |sizes|
      ensures length <= maximum && start + length <= |sizes|
      ensures forall k :: start <= k < start + length ==> k in HeldBy(w)
      ensures length < maximum && start + length < |sizes| ==> start + length !in HeldBy(w)
    {
      var limit := if start + maximum < |sizes| then start + maximum else |sizes|;
      length := 0;
      for index := start to limit
        invariant length == index - start
        invariant forall k :: start <= k < index ==> k in HeldBy(w)
      {
        if index !in HeldBy(w) { return; }
        length := length + 1;
      }
    }

    method ResidentArtifactBytes(w: WorkerId, lo: nat, hi: nat) returns (bytes: nat)
      requires Valid() && InRange(lo, hi)
      ensures bytes == HeldBytes(sizes, HeldBy(w), lo, hi + 1) <= MAX_SAFE_INTEGER
    {
      bytes := 0;
      for index := lo to hi + 1
        invariant bytes == HeldBytes(sizes, HeldBy(w), lo, index)
      {
        if index in HeldBy(w) {
          bytes := bytes + sizes[index];
        }
      }
      WindowsAreSafe(sizes, HeldBy(w), lo, hi + 1);
    }

    method ArtifactBytes(lo: nat, hi: nat) returns (bytes: nat)
      requires Valid() && InRange(lo, hi)
      ensures bytes == Sum(sizes, lo, hi + 1) <= MAX_SAFE_INTEGER
    {
      bytes := 0;
      for index := lo to hi + 1
        invariant bytes == Sum(sizes, lo, index)
      {
        bytes := bytes + sizes[index];
      }
      WindowsAreSafe(sizes, {}, lo, hi + 1);
    }

    method MissingArtifacts(w: WorkerId, lo: nat, hi: nat) returns (missing: seq<nat>)
      requires Valid() && InRange(lo, hi)
      ensures missing == Missing(HeldBy(w), lo, hi + 1)
    {
      missing := [];
      for index := lo to hi + 1
        invariant missing == Missing(HeldBy(w), lo, index)
      {
        if index !in HeldBy(w) {
          missing := missing + [index];
        }
      }
    }

    method TotalBytes(list: seq<nat>) returns (bytes: nat)
      requires forall i :: 0 <= i < |list| ==> list[i] < |sizes|
      ensures bytes == BytesOf(sizes, list)
    {
      bytes := 0;
      for i := 0 to |list|
        invariant bytes == BytesOf(sizes, list[..i])
      {
        assert list[..i + 1] == list[..i] + [list[i]];
        BytesOfAppend(sizes, list[..i], list[i]);
        bytes := bytes + sizes[list[i]];
      }
      assert list[..|list|] == list;
    }

    method MissingArtifactBytes(w: WorkerId, lo: nat, hi: nat) returns (bytes: nat)
      requires Valid() && InRange(lo, hi)
      ensures bytes + HeldBytes(sizes, HeldBy(w), lo, hi + 1) == Sum(sizes, lo, hi + 1)
      ensures bytes <= MAX_SAFE_INTEGER
    {
      var missing := MissingArtifacts(w, lo, hi);
      MissingIsExact(HeldBy(w), lo, hi + 1);
      bytes := TotalBytes(missing);
      BytesAreConserved(sizes, HeldBy(w), lo, hi + 1);
      WindowsAreSafe(sizes, HeldBy(w), lo, hi + 1);
    }
  }
}
