/**
 * The topology checks of the model manifest: segments listed in any order
 * whose layer ranges, taken by index, must tile the model.
 */
module ManifestGeometry {
  import opened SafeIntegers

  /** A field as found: a safe non-negative integer, or anything else. */
  datatype Field = Safe(value: SafeNat) | Malformed

  datatype Artifact = NotAnObject | Segment(index: Field, layerStart: Field, layerEnd: Field)

  datatype Issue =
    | EmptySegments | InvalidManifest | DuplicateSegmentIndex | InvalidLayerRange
    | LayersOutsideModel | MissingSegmentIndex | NonContiguousLayerRanges | SegmentsIncomplete

  /** One layer follows another exactly when both are safe and differ by one, even at the largest safe integer. */
  predicate IsContiguousLayerSuccessor(previousEnd: Field, currentStart: Field): (r: bool)
    ensures r <==> previousEnd.Safe? && currentStart.Safe? && currentStart.value - previousEnd.value == 1
  {
    if !previousEnd.Safe? || !currentStart.Safe? then false
    else if previousEnd.value == MAX_SAFE_INTEGER then false
    else currentStart.value == previousEnd.value + 1
  }

  // --- What each issue means ---

  predicate HasIndex(a: Artifact) { a.Segment? && a.index.Safe? }

  predicate Typed(a: Artifact) { HasIndex(a) && a.layerStart.Safe? && a.layerEnd.Safe? }

  predicate AllTyped(s: seq<Artifact>) { forall i | 0 <= i < |s| :: Typed(s[i]) }

  /** The layer count is usable. */
  predicate Countable(totalLayers: Field) { totalLayers.Safe? && totalLayers.value >= 1 }

  predicate Repeats(s: seq<Artifact>, i: nat, j: nat) {
    i < j < |s| && HasIndex(s[i]) && HasIndex(s[j]) && s[i].index == s[j].index
  }

  predicate BadRange(a: Artifact) {
    a.Segment? &&
    (a.layerStart.Malformed? || a.layerEnd.Malformed? || a.layerEnd.value < a.layerStart.value)
  }

  predicate Outside(a: Artifact, totalLayers: Field) {
    Countable(totalLayers) && a.Segment? && a.layerEnd.Safe? && a.layerEnd.value >= totalLayers.value
  }

  predicate Misplaced(s: seq<Artifact>, k: nat) {
    k < |s| && HasIndex(s[k]) && s[k].index.value != k
  }

  ghost predicate Placed(s: seq<Artifact>) { forall k: nat :: !Misplaced(s, k) }

  ghost predicate Distinct(s: seq<Artifact>) { forall i: nat, j: nat :: !Repeats(s, i, j) }

  predicate Gap(s: seq<Artifact>, k: nat) {
    0 < k < |s| && s[k - 1].Segment? && s[k].Segment? &&
    !IsContiguousLayerSuccessor(s[k - 1].layerEnd, s[k].layerStart)
  }

  predicate Uncovered(s: seq<Artifact>, totalLayers: Field)
    requires s != [] && AllTyped(s) && Countable(totalLayers)
  {
    s[0].layerStart.value != 0 || s[|s| - 1].layerEnd.value != totalLayers.value - 1
  }

  ghost predicate Checkable(s: seq<Artifact>, totalLayers: Field) {
    s != [] && AllTyped(s) && Countable(totalLayers)
  }

  /** Exactly when an issue is raised. */
  ghost predicate Raised(x: Issue, s: seq<Artifact>, totalLayers: Field) {
    match x
    case EmptySegments => s == []
    case InvalidManifest => exists a :: a in s && !HasIndex(a)
    case DuplicateSegmentIndex => !Distinct(s)
    case InvalidLayerRange => exists a :: a in s && BadRange(a)
    case LayersOutsideModel => exists a :: a in s && Outside(a, totalLayers)
    case MissingSegmentIndex => Checkable(s, totalLayers) && !Placed(SortByIndex(s))
    case NonContiguousLayerRanges => Checkable(s, totalLayers) && exists k: nat :: Gap(SortByIndex(s), k)
    case SegmentsIncomplete => Checkable(s, totalLayers) && Uncovered(SortByIndex(s), totalLayers)
  }

  // --- Sorting a copy by index ---

  predicate Nondecreasing(s: seq<Artifact>)
    requires AllTyped(s)
  {
    forall i, j :: 0 <= i <= j < |s| ==> s[i].index.value <= s[j].index.value
  }

  function Insert(s: seq<Artifact>, a: Artifact): (r: seq<Artifact>)
    requires AllTyped(s) && Typed(a) && Nondecreasing(s)
    ensures AllTyped(r) && Nondecreasing(r) && |r| == |s| + 1
    ensures r[|s|] == if s == [] || s[|s| - 1].index.value <= a.index.value then a else s[|s| - 1]
  {
    if s == [] || s[|s| - 1].index.value <= a.index.value then s + [a]
    else
      var last := |s| - 1;
      Insert(s[..last], a) + [s[last]]
  }

  /** The stable sort by index. */
  function SortByIndex(s: seq<Artifact>): (r: seq<Artifact>)
    requires AllTyped(s)
    ensures AllTyped(r) && Nondecreasing(r) && |r| == |s|
  {
    if s == [] then []
    else
      var last := |s| - 1;
      Insert(SortByIndex(s[..last]), s[last])
  }

  lemma {:induction false} InsertAddsOne(s: seq<Artifact>, a: Artifact)
    requires AllTyped(s) && Typed(a) && Nondecreasing(s)
    ensures multiset(Insert(s, a)) == multiset(s) + multiset{a}
  {
    if s != [] && s[|s| - 1].index.value > a.index.value {
      InsertAddsOne(s[..|s| - 1], a);
      assert s == s[..|s| - 1] + [s[|s| - 1]];
    }
  }

  /** Sorting loses no artifact and invents none. */
  lemma {:induction false} SortIsPermutation(s: seq<Artifact>)
    requires AllTyped(s)
    ensures multiset(SortByIndex(s)) == multiset(s)
  {
    if s != [] {
      SortIsPermutation(s[..|s| - 1]);
      InsertAddsOne(SortByIndex(s[..|s| - 1]), s[|s| - 1]);
      assert s == s[..|s| - 1] + [s[|s| - 1]];
    }
  }

  /** Where an artifact went. */
  lemma Sorted(s: seq<Artifact>, i: nat) returns (j: nat)
    requires AllTyped(s) && i < |s|
    ensures j < |s| && SortByIndex(s)[j] == s[i]
  {
    SortIsPermutation(s);
    assert s[i] in multiset(SortByIndex(s));
    j :| 0 <= j < |s| && SortByIndex(s)[j] == s[i];
  }

  /** Where a sorted artifact came from. */
  lemma Unsorted(s: seq<Artifact>, j: nat) returns (i: nat)
    requires AllTyped(s) && j < |s|
    ensures i < |s| && s[i] == SortByIndex(s)[j]
  {
    SortIsPermutation(s);
    assert SortByIndex(s)[j] in multiset(s);
    i :| 0 <= i < |s| && s[i] == SortByIndex(s)[j];
  }

  // --- The validator ---

  /** The indexes already seen among the first `n` artifacts. */
  ghost predicate Seen(indexes: set<nat>, s: seq<Artifact>, n: nat)
    requires n <= |s|
  {
    forall x :: x in indexes <==> exists i: nat :: i < n && HasIndex(s[i]) && s[i].index.value == x
  }

  /** The issues the scan of the first `n` artifacts can raise. */
  ghost predicate Scanned(issues: seq<Issue>, s: seq<Artifact>, n: nat, totalLayers: Field)
    requires n <= |s|
  {
    forall x :: x in issues <==>
      !x.EmptySegments? && !x.MissingSegmentIndex? && !x.NonContiguousLayerRanges? && !x.SegmentsIncomplete? &&
      Raised(x, s[..n], totalLayers)
  }

  /** Check one artifact's own fields and its index against those seen. */
  method ValidateSegmentArtifact(a: Artifact, totalLayers: Field, indexes: set<nat>)
    returns (seen: set<nat>, issues: seq<Issue>)
    requires a.Segment?
    ensures seen == if a.index.Safe? then indexes + {a.index.value} else indexes
    ensures forall x :: x in issues <==>
      || (x.InvalidManifest? && !HasIndex(a))
      || (x.DuplicateSegmentIndex? && HasIndex(a) && a.index.value in indexes)
      || (x.InvalidLayerRange? && BadRange(a))
      || (x.LayersOutsideModel? && Outside(a, totalLayers))
  {
    seen, issues := indexes, [];
    if !a.index.Safe? {
      issues := issues + [InvalidManifest];
    } else if a.index.value in indexes {
      issues := issues + [DuplicateSegmentIndex];
    } else {
      seen := seen + {a.index.value};
    }
    if !a.layerStart.Safe? {
      issues := issues + [InvalidLayerRange];
    }
    if !a.layerEnd.Safe? {
      issues := issues + [InvalidLayerRange];
    }
    if a.layerStart.Safe? && a.layerEnd.Safe? && a.layerEnd.value < a.layerStart.value {
      issues := issues + [InvalidLayerRange];
    }
    if Countable(totalLayers) && a.layerEnd.Safe? && a.layerEnd.value >= totalLayers.value {
      issues := issues + [LayersOutsideModel];
    }
  }

  lemma ScanStep(issues: seq<Issue>, more: seq<Issue>, s: seq<Artifact>, n: nat, totalLayers: Field, indexes: set<nat>)
    requires n < |s| && Scanned(issues, s, n, totalLayers) && Seen(indexes, s, n)
    requires forall x :: x in more <==>
      || (x.InvalidManifest? && !HasIndex(s[n]))
      || (x.DuplicateSegmentIndex? && HasIndex(s[n]) && s[n].index.value in indexes)
      || (x.InvalidLayerRange? && BadRange(s[n]))
      || (x.LayersOutsideModel? && Outside(s[n], totalLayers))
    ensures Scanned(issues + more, s, n + 1, totalLayers)
  {
    var before, after := s[..n], s[..n + 1];
    assert after == before + [s[n]];
    forall x: Issue | x.DuplicateSegmentIndex?
      ensures Raised(x, after, totalLayers) <==> Raised(x, before, totalLayers) || x in more
    {
      if i: nat, j: nat :| Repeats(before, i, j) {
        assert Repeats(after, i, j);
      }
      if x in more {
        var i: nat :| i < n && HasIndex(s[i]) && s[i].index.value == s[n].index.value;
        assert Repeats(after, i, n);
      }
      if i: nat, j: nat :| Repeats(after, i, j) {
        assert j < n ==> Repeats(before, i, j);
      }
    }
  }

  method ScanArtifacts(s: seq<Artifact>, totalLayers: Field) returns (issues: seq<Issue>)
    ensures Scanned(issues, s, |s|, totalLayers)
  {
    issues := [];
    var indexes: set<nat> := {};
    for n := 0 to |s|
      invariant Scanned(issues, s, n, totalLayers) && Seen(indexes, s, n)
    {
      ghost var before := indexes;
      var more := [InvalidManifest];
      if s[n].Segment? {
        indexes, more := ValidateSegmentArtifact(s[n], totalLayers, indexes);
      }
      ScanStep(issues, more, s, n, totalLayers, before);
      issues := issues + more;
    }
  }

  /** The three checks on the sorted copy, each reported at most once. */
  method CheckTopology(sorted: seq<Artifact>, totalLayers: Field) returns (issues: seq<Issue>)
    requires Checkable(sorted, totalLayers)
    ensures forall x :: x in issues <==>
      || (x.MissingSegmentIndex? && !Placed(sorted))
      || (x.NonContiguousLayerRanges? && exists k: nat :: Gap(sorted, k))
      || (x.SegmentsIncomplete? && Uncovered(sorted, totalLayers))
  {
    issues := [];
    var n := 0;
    while n < |sorted|
      invariant n <= |sorted| && issues == []
      invariant forall k: nat :: k < n ==> !Misplaced(sorted, k)
    {
      if sorted[n].index.value != n {
        assert Misplaced(sorted, n);
        issues := [MissingSegmentIndex];
        break;
      }
      n := n + 1;
    }
    assert !Placed(sorted) <==> issues == [MissingSegmentIndex];
    ghost var first := issues;
    n := 1;
    while n < |sorted|
      invariant 1 <= n && issues == first
      invariant forall k: nat :: k < n ==> !Gap(sorted, k)
    {
      if !IsContiguousLayerSuccessor(sorted[n - 1].layerEnd, sorted[n].layerStart) {
        assert Gap(sorted, n);
        issues := issues + [NonContiguousLayerRanges];
        break;
      }
      n := n + 1;
    }
    if sorted[0].layerStart.value != 0 || sorted[|sorted| - 1].layerEnd.value != totalLayers.value - 1 {
      issues := issues + [SegmentsIncomplete];
    }
  }

  lemma EmptyIffClean(issues: seq<Issue>, s: seq<Artifact>, totalLayers: Field)
    requires forall x :: x in issues <==> Raised(x, s, totalLayers)
    ensures issues == [] <==> Clean(s, totalLayers)
  {
    if issues != [] {
      assert issues[0] in issues;
    }
  }

  /**
   * The validator raises each issue exactly when its meaning holds, and so none exactly for a
   * manifest that partitions the model.
   */
  method ValidateSegments(s: seq<Artifact>, totalLayers: Field) returns (issues: seq<Issue>)
    ensures forall x :: x in issues <==> Raised(x, s, totalLayers)
    ensures Countable(totalLayers) ==> (issues == [] <==> Partitions(s, totalLayers.value))
  {
    if |s| == 0 {
      assert Raised(EmptySegments, s, totalLayers);
      return [EmptySegments];
    }
    issues := ScanArtifacts(s, totalLayers);
    assert s[..|s|] == s;
    if AllTyped(s) && Countable(totalLayers) {
      var topology := CheckTopology(SortByIndex(s), totalLayers);
      issues := issues + topology;
      CleanIffPartitions(s, totalLayers);
    }
    EmptyIffClean(issues, s, totalLayers);
    if !AllTyped(s) {
      MalformedIsReported(s, totalLayers);
    }
  }

  // --- What an accepted manifest is ---

  predicate At(s: seq<Artifact>, i: nat, k: nat) {
    i < |s| && HasIndex(s[i]) && s[i].index.value == k
  }

  predicate OnlyAt(s: seq<Artifact>, i: nat, k: nat) {
    At(s, i, k) && forall j: nat | j < |s| :: At(s, j, k) ==> j == i
  }

  ghost predicate Somewhere(s: seq<Artifact>, k: nat) {
    exists i: nat :: At(s, i, k)
  }

  ghost predicate Once(s: seq<Artifact>, k: nat) {
    exists i: nat :: OnlyAt(s, i, k)
  }

  /** The indexes are exactly `0` to `|s| - 1`, in any order. */
  ghost predicate Indexed(s: seq<Artifact>) {
    forall k: nat :: k < |s| ==> Once(s, k)
  }

  predicate Covers(a: Artifact, layer: nat) {
    Typed(a) && a.layerStart.value <= layer <= a.layerEnd.value
  }

  predicate Precedes(a: Artifact, b: Artifact) {
    Typed(a) && Typed(b) && (a.index.value < b.index.value ==> a.layerEnd.value < b.layerStart.value)
  }

  ghost predicate Held(s: seq<Artifact>, layer: nat) {
    exists i: nat :: i < |s| && Covers(s[i], layer)
  }

  predicate Inside(a: Artifact, total: nat) {
    Typed(a) && a.layerStart.value <= a.layerEnd.value < total
  }

  /** Non-empty ranges inside the model that rise with the index and leave no layer out. */
  ghost predicate Spread(s: seq<Artifact>, total: nat)
    requires AllTyped(s)
  {
    && (forall i: nat :: i < |s| ==> Inside(s[i], total))
    && (forall i: nat, j: nat :: i < |s| && j < |s| ==> Precedes(s[i], s[j]))
    && (forall layer: nat :: layer < total ==> Held(s, layer))
  }

  /** The segments divide the layers among them. */
  ghost predicate Partitions(s: seq<Artifact>, total: nat) {
    s != [] && AllTyped(s) && Indexed(s) && Spread(s, total)
  }

  // --- An index sequence in order is the identity ---

  lemma {:induction false} AtLeast(s: seq<Artifact>, k: nat) returns (p: nat)
    requires AllTyped(s) && Nondecreasing(s) && k < |s|
    requires forall x: nat :: x < |s| ==> Somewhere(s, x)
    ensures k <= p && At(s, p, k)
  {
    assert Somewhere(s, k);
    p :| At(s, p, k);
    if k > 0 {
      var q := AtLeast(s, k - 1);
      assert q < p;
    }
  }

  lemma {:induction false} AtMost(s: seq<Artifact>, k: nat) returns (p: nat)
    requires AllTyped(s) && Nondecreasing(s) && k < |s|
    requires forall x: nat :: x < |s| ==> Somewhere(s, x)
    ensures p <= k && At(s, p, k)
    decreases |s| - k
  {
    assert Somewhere(s, k);
    p :| At(s, p, k);
    if k + 1 < |s| {
      var q := AtMost(s, k + 1);
      assert p < q;
    }
  }

  /** Sorting puts every segment at its own index exactly when the indexes are `0` to `|s| - 1`. */
  lemma IndexedIffPlaced(s: seq<Artifact>)
    requires AllTyped(s)
    ensures Indexed(s) <==> Placed(SortByIndex(s)) && Distinct(s)
  {
    if Indexed(s) {
      IndexedIsPlaced(s);
      IndexedIsDistinct(s);
    }
    if Placed(SortByIndex(s)) && Distinct(s) {
      forall k: nat | k < |s| ensures Once(s, k) {
        assert !Misplaced(SortByIndex(s), k);
        var i := Unsorted(s, k);
        forall j: nat | At(s, j, k) ensures j == i {
          assert !Repeats(s, i, j) && !Repeats(s, j, i);
        }
        assert OnlyAt(s, i, k);
      }
    }
  }

  lemma IndexedIsPlaced(s: seq<Artifact>)
    requires AllTyped(s) && Indexed(s)
    ensures Placed(SortByIndex(s))
  {
    var r := SortByIndex(s);
    forall x: nat | x < |r| ensures Somewhere(r, x) {
      assert Once(s, x);
      var i: nat :| OnlyAt(s, i, x);
      var j := Sorted(s, i);
      assert At(r, j, x);
    }
    forall k: nat ensures !Misplaced(r, k) {
      if k < |r| {
        var p := AtLeast(r, k);
        var q := AtMost(r, k);
      }
    }
  }

  lemma IndexedIsDistinct(s: seq<Artifact>)
    requires AllTyped(s) && Indexed(s)
    ensures Distinct(s)
  {
    forall i: nat, j: nat ensures !Repeats(s, i, j) {
      if Repeats(s, i, j) {
        var k := Sorted(s, i);
        IndexedIsPlaced(s);
        assert !Misplaced(SortByIndex(s), k) && Once(s, k);
        var o: nat :| OnlyAt(s, o, k);
        assert At(s, i, k) && At(s, j, k);
      }
    }
  }

  // --- Contiguous ranges are the ones that leave nothing out ---

  /** Ranges in index order that meet end to end. */
  ghost predicate Chained(r: seq<Artifact>, total: nat) {
    && r != [] && AllTyped(r)
    && Placed(r)
    && (forall k: nat :: !Gap(r, k))
    && (forall i: nat :: i < |r| ==> Inside(r[i], total))
    && r[0].layerStart.value == 0 && r[|r| - 1].layerEnd.value == total - 1
  }

  lemma {:induction false} ChainRises(r: seq<Artifact>, total: nat, i: nat, j: nat)
    requires Chained(r, total) && i < j < |r|
    ensures r[i].layerEnd.value < r[j].layerStart.value
  {
    assert !Gap(r, j);
    if i + 1 < j {
      ChainRises(r, total, i, j - 1);
      assert r[j - 1] in r;
    }
  }

  lemma {:induction false} ChainCovers(r: seq<Artifact>, total: nat, n: nat, layer: nat)
    requires Chained(r, total) && n < |r| && layer <= r[n].layerEnd.value
    ensures Held(r, layer)
  {
    assert r[n] in r;
    if layer < r[n].layerStart.value {
      assert n > 0 && !Gap(r, n);
      ChainCovers(r, total, n - 1, layer);
    } else {
      assert Covers(r[n], layer);
    }
  }

  lemma ChainIsSpread(r: seq<Artifact>, total: nat)
    requires Chained(r, total)
    ensures Spread(r, total)
  {
    forall i: nat, j: nat | i < |r| && j < |r| ensures Precedes(r[i], r[j]) {
      assert !Misplaced(r, i) && !Misplaced(r, j);
      if i < j {
        ChainRises(r, total, i, j);
      }
    }
    forall layer: nat | layer < total ensures Held(r, layer) {
      ChainCovers(r, total, |r| - 1, layer);
    }
  }

  /** Of two segments placed in order, the earlier ends first. */
  lemma SpreadRises(r: seq<Artifact>, total: nat, i: nat, j: nat)
    requires AllTyped(r) && Spread(r, total) && Placed(r) && i < j < |r|
    ensures r[i].layerEnd.value < r[j].layerStart.value
  {
    assert r[i] in r && r[j] in r && !Misplaced(r, i) && !Misplaced(r, j) && Precedes(r[i], r[j]);
  }

  /** The segment that holds a layer. */
  lemma Holder(r: seq<Artifact>, total: nat, layer: nat) returns (i: nat)
    requires AllTyped(r) && Spread(r, total) && layer < total
    ensures i < |r| && Covers(r[i], layer)
  {
    assert Held(r, layer);
    i :| i < |r| && Covers(r[i], layer);
  }

  lemma SpreadIsChained(r: seq<Artifact>, total: nat)
    requires r != [] && AllTyped(r) && Spread(r, total) && total >= 1 && Placed(r)
    ensures Chained(r, total)
  {
    forall k: nat ensures !Gap(r, k) {
      if 0 < k < |r| {
        SpreadRises(r, total, k - 1, k);
        assert r[k - 1] in r && r[k] in r;
        var next := r[k - 1].layerEnd.value + 1;
        var i := Holder(r, total, next);
        if i < k - 1 {
          SpreadRises(r, total, i, k - 1);
        } else if k < i {
          SpreadRises(r, total, k, i);
        }
      }
    }
    var first := Holder(r, total, 0);
    if 0 < first {
      SpreadRises(r, total, 0, first);
    }
    var last := Holder(r, total, total - 1);
    var end := |r| - 1;
    assert r[end] in r;
    if last < end {
      SpreadRises(r, total, last, end);
    }
  }

  /** Every artifact of `s` is also one of `r`. */
  ghost predicate Among(s: seq<Artifact>, r: seq<Artifact>) { forall i: nat :: i < |s| ==> Contains(r, s[i]) }

  ghost predicate Contains(r: seq<Artifact>, a: Artifact) { exists j: nat :: j < |r| && r[j] == a }

  lemma SpreadCarries(s: seq<Artifact>, r: seq<Artifact>, total: nat)
    requires AllTyped(s) && AllTyped(r) && Among(s, r) && Among(r, s) && Spread(s, total)
    ensures Spread(r, total)
  {
    forall i: nat, j: nat | i < |r| && j < |r| ensures Inside(r[i], total) && Precedes(r[i], r[j]) {
      assert Contains(s, r[i]) && Contains(s, r[j]);
    }
    forall layer: nat | layer < total ensures Held(r, layer) {
      var i := Holder(s, total, layer);
      assert Contains(r, s[i]);
    }
  }

  lemma SortedIsAmong(s: seq<Artifact>)
    requires AllTyped(s)
    ensures Among(s, SortByIndex(s)) && Among(SortByIndex(s), s)
  {
    hide SortByIndex;
    forall i: nat | i < |s| ensures Contains(SortByIndex(s), s[i]) {
      var j := Sorted(s, i);
    }
    forall j: nat | j < |s| ensures Contains(s, SortByIndex(s)[j]) {
      var i := Unsorted(s, j);
    }
  }

  // --- The main results ---

  ghost predicate Clean(s: seq<Artifact>, totalLayers: Field) { forall x :: !Raised(x, s, totalLayers) }

  lemma CleanIsChained(s: seq<Artifact>, totalLayers: Field)
    requires Checkable(s, totalLayers) && Clean(s, totalLayers)
    ensures Chained(SortByIndex(s), totalLayers.value) && Placed(SortByIndex(s)) && Distinct(s)
  {
    hide SortByIndex;
    var r, total := SortByIndex(s), totalLayers.value;
    assert !Raised(MissingSegmentIndex, s, totalLayers) && !Raised(DuplicateSegmentIndex, s, totalLayers);
    assert !Raised(InvalidLayerRange, s, totalLayers) && !Raised(LayersOutsideModel, s, totalLayers);
    assert !Raised(NonContiguousLayerRanges, s, totalLayers) && !Raised(SegmentsIncomplete, s, totalLayers);
    forall j: nat | j < |r| ensures Inside(r[j], total) {
      var i := Unsorted(s, j);
      assert s[i] in s && !BadRange(s[i]) && !Outside(s[i], totalLayers);
    }
    assert forall k: nat :: !Gap(r, k);
  }

  lemma ChainedIsClean(s: seq<Artifact>, totalLayers: Field)
    requires Checkable(s, totalLayers) && Chained(SortByIndex(s), totalLayers.value) && Distinct(s)
    requires Spread(s, totalLayers.value)
    ensures Clean(s, totalLayers)
  {
    hide SortByIndex;
    forall a | a in s ensures HasIndex(a) && !BadRange(a) && !Outside(a, totalLayers) {
      var i: nat :| i < |s| && s[i] == a;
      assert Inside(s[i], totalLayers.value);
    }
  }

  /** A manifest raises no issue exactly when its segments partition the layers. */
  lemma CleanIffPartitions(s: seq<Artifact>, totalLayers: Field)
    requires Checkable(s, totalLayers)
    ensures Clean(s, totalLayers) <==> Partitions(s, totalLayers.value)
  {
    hide SortByIndex, Spread, Chained, Raised, Indexed, Clean;
    var r, total := SortByIndex(s), totalLayers.value;
    IndexedIffPlaced(s);
    SortedIsAmong(s);
    if Clean(s, totalLayers) {
      CleanIsChained(s, totalLayers);
      ChainIsSpread(r, total);
      SpreadCarries(r, s, total);
    }
    if Partitions(s, total) {
      SpreadCarries(s, r, total);
      SpreadIsChained(r, total);
      ChainedIsClean(s, totalLayers);
    }
  }

  /** A field of the wrong kind always raises an issue. */
  lemma MalformedIsReported(s: seq<Artifact>, totalLayers: Field)
    requires !AllTyped(s)
    ensures !Clean(s, totalLayers)
  {
    var i: nat :| i < |s| && !Typed(s[i]);
    if HasIndex(s[i]) {
      assert BadRange(s[i]);
      assert Raised(InvalidLayerRange, s, totalLayers);
    } else {
      assert Raised(InvalidManifest, s, totalLayers);
    }
  }

  /** One segment covers a layer and no other does. */
  predicate OnlyCover(s: seq<Artifact>, i: nat, layer: nat)
    requires i < |s|
  {
    Covers(s[i], layer) && forall j: nat | j < |s| :: Covers(s[j], layer) ==> j == i
  }

  /** In an accepted manifest every layer of the model lies in exactly one segment. */
  lemma EveryLayerInOneSegment(s: seq<Artifact>, total: nat, layer: nat)
    requires Partitions(s, total) && layer < total
    ensures exists i: nat :: i < |s| && OnlyCover(s, i, layer)
  {
    var i := Holder(s, total, layer);
    forall j: nat | j < |s| && Covers(s[j], layer) ensures j == i {
      assert Precedes(s[i], s[j]) && Precedes(s[j], s[i]);
      IndexedIffPlaced(s);
      assert !Repeats(s, i, j) && !Repeats(s, j, i);
    }
    assert OnlyCover(s, i, layer);
  }
}
