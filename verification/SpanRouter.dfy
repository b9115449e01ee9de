/**
 * The span router: a preference-ordered search with backtracking over which
 * idle worker takes the longest span it can hold at each boundary, and a set
 * of dead states shared by the whole search.
 */
module SpanRouters {
  import opened Options
  import opened DurableTypes
  import opened Windows
  import opened WorkerPools

  /** What the residency ledger says of a worker and a span: prefix length, resident and missing bytes. */
  datatype Locality = Locality(prefix: nat, resident: nat, missing: nat)

  /** Everything a search reads; `order` is the position of an identifier in the collation order. */
  datatype Router = Router(
    costs: seq<nat>, pool: map<WorkerId, PoolWorker>, tracked: bool,
    locality: (WorkerId, nat, nat) -> Locality, order: WorkerId -> int)

  datatype Candidate = Candidate(worker: PoolWorker, maxSpan: nat, locality: Locality)

  datatype Span = Span(worker: WorkerId, first: nat, last: nat)

  type Route = seq<Span>

  predicate Eligible(r: Router, start: nat, used: set<WorkerId>, w: WorkerId)
    requires start <= |r.costs|
  {
    w in r.pool && r.pool[w].status.Free? && w !in used && MaxSpan(r.costs, r.pool[w].vramMB, start) >= 1
  }

  function CandidateOf(r: Router, start: nat, w: WorkerId): Candidate
    requires start <= |r.costs| && w in r.pool
  {
    var n := MaxSpan(r.costs, r.pool[w].vramMB, start);
    Candidate(r.pool[w], n, if r.tracked then r.locality(w, start, n) else Locality(0, 0, 0))
  }

  // --- The preference order ---

  /** The keys compared in turn; smaller comes first. */
  function Keys(r: Router, c: Candidate): seq<int> {
    [0 - c.locality.prefix, 0 - c.locality.resident, c.locality.missing, c.worker.tier, 0 - c.maxSpan,
     0 - c.worker.vramMB, r.order(c.worker.id)]
  }

  predicate NotAfter(a: seq<int>, b: seq<int>)
    requires |a| == |b|
  {
    a == [] || a[0] < b[0] || (a[0] == b[0] && NotAfter(a[1..], b[1..]))
  }

  lemma {:induction false} NotAfterIsTotal(a: seq<int>, b: seq<int>)
    requires |a| == |b|
    ensures NotAfter(a, b) || NotAfter(b, a)
  {
    if a != [] {
      NotAfterIsTotal(a[1..], b[1..]);
    }
  }

  lemma {:induction false} NotAfterIsTransitive(a: seq<int>, b: seq<int>, c: seq<int>)
    requires |a| == |b| == |c| && NotAfter(a, b) && NotAfter(b, c)
    ensures NotAfter(a, c)
  {
    if a != [] && a[0] == b[0] == c[0] {
      NotAfterIsTransitive(a[1..], b[1..], c[1..]);
    }
  }

  predicate Preferred(r: Router, a: Candidate, b: Candidate) { NotAfter(Keys(r, a), Keys(r, b)) }

  ghost predicate Sorted(r: Router, cs: seq<Candidate>) {
    forall i, j :: 0 <= i < j < |cs| ==> Preferred(r, cs[i], cs[j])
  }

  function Insert(r: Router, c: Candidate, cs: seq<Candidate>): (out: seq<Candidate>) {
    if cs == [] then [c]
    else if Preferred(r, c, cs[0]) then [c] + cs
    else [cs[0]] + Insert(r, c, cs[1..])
  }

  /** The candidates in preference order. */
  function Sort(r: Router, cs: seq<Candidate>): seq<Candidate> {
    if cs == [] then [] else Insert(r, cs[0], Sort(r, cs[1..]))
  }

  lemma {:induction false} InsertKeeps(r: Router, c: Candidate, cs: seq<Candidate>)
    requires Sorted(r, cs)
    ensures Sorted(r, Insert(r, c, cs)) && multiset(Insert(r, c, cs)) == multiset(cs) + multiset{c}
    decreases cs
  {
    hide Preferred;
    if cs == [] {
    } else if Preferred(r, c, cs[0]) {
      forall i | 0 <= i < |cs| ensures Preferred(r, c, cs[i]) {
        if i > 0 { PreferredIsTransitive(r, c, cs[0], cs[i]); }
      }
    } else {
      PreferredIsTotal(r, c, cs[0]);
      InsertKeeps(r, c, cs[1..]);
      var out := Insert(r, c, cs[1..]);
      assert cs == [cs[0]] + cs[1..];
      forall i | 0 <= i < |out| ensures Preferred(r, cs[0], out[i]) {
        assert out[i] in multiset(out);
        assert out[i] == c || out[i] in cs[1..];
      }
    }
  }

  lemma PreferredIsTotal(r: Router, a: Candidate, b: Candidate)
    ensures Preferred(r, a, b) || Preferred(r, b, a)
  {
    NotAfterIsTotal(Keys(r, a), Keys(r, b));
  }

  lemma PreferredIsTransitive(r: Router, a: Candidate, b: Candidate, c: Candidate)
    requires Preferred(r, a, b) && Preferred(r, b, c)
    ensures Preferred(r, a, c)
  {
    NotAfterIsTransitive(Keys(r, a), Keys(r, b), Keys(r, c));
  }

  predicate StrictlyPreferred(r: Router, a: Candidate, b: Candidate) { Preferred(r, a, b) && !Preferred(r, b, a) }

  /**
   * What decides, in turn: the longer resident prefix, more resident bytes,
   * fewer missing bytes, the lower tier, the longer span, more memory, and at
   * last the collation order of the identifiers.
   */
  lemma WhatDecides(r: Router, a: Candidate, b: Candidate)
    ensures a.locality.prefix > b.locality.prefix ==> StrictlyPreferred(r, a, b)
    ensures a.locality.prefix == b.locality.prefix ==>
              && (a.locality.resident > b.locality.resident ==> StrictlyPreferred(r, a, b))
              && (a.locality.resident == b.locality.resident && a.locality.missing < b.locality.missing ==>
                    StrictlyPreferred(r, a, b))
    ensures a.locality == b.locality ==>
              && (a.worker.tier < b.worker.tier ==> StrictlyPreferred(r, a, b))
              && (a.worker.tier == b.worker.tier && a.maxSpan > b.maxSpan ==> StrictlyPreferred(r, a, b))
    ensures a.locality == b.locality && a.worker.tier == b.worker.tier && a.maxSpan == b.maxSpan ==>
              && (a.worker.vramMB > b.worker.vramMB ==> StrictlyPreferred(r, a, b))
              && (a.worker.vramMB == b.worker.vramMB ==>
                  (Preferred(r, a, b) <==> r.order(a.worker.id) <= r.order(b.worker.id)))
  {
    var x, y := Keys(r, a), Keys(r, b);
    FirstDifference(x, y, 0);
    FirstDifference(x, y, 1);
    FirstDifference(x, y, 2);
    FirstDifference(x, y, 3);
    FirstDifference(x, y, 4);
    FirstDifference(x, y, 5);
    FirstDifference(x, y, 6);
    FirstDifference(y, x, 6);
  }

  lemma {:induction false} FirstDifference(a: seq<int>, b: seq<int>, k: nat)
    requires |a| == |b| && k < |a|
    ensures a[..k] == b[..k] && a[k] < b[k] ==> NotAfter(a, b) && !NotAfter(b, a)
    ensures a[..k] == b[..k] && a[k] == b[k] && k + 1 == |a| ==> NotAfter(a, b) && NotAfter(b, a)
  {
    if k > 0 && a[..k] == b[..k] {
      assert a[0] == a[..k][0] == b[..k][0] == b[0];
      assert a[1..][..k - 1] == a[..k][1..] == b[..k][1..] == b[1..][..k - 1];
      FirstDifference(a[1..], b[1..], k - 1);
    }
  }

  /** Sorting puts the same candidates in preference order. */
  lemma {:induction false} SortSorts(r: Router, cs: seq<Candidate>)
    ensures Sorted(r, Sort(r, cs)) && multiset(Sort(r, cs)) == multiset(cs)
  {
    if cs != [] {
      SortSorts(r, cs[1..]);
      InsertKeeps(r, cs[0], Sort(r, cs[1..]));
      assert cs == [cs[0]] + cs[1..];
    }
  }

  /** The eligible workers, in collection order. */
  function Gather(r: Router, start: nat, used: set<WorkerId>, ids: seq<WorkerId>): seq<Candidate>
    requires start <= |r.costs|
  {
    if ids == [] then []
    else
      Gather(r, start, used, ids[..|ids| - 1])
      + (if Eligible(r, start, used, ids[|ids| - 1]) then [CandidateOf(r, start, ids[|ids| - 1])] else [])
  }

  lemma {:induction false} GatherIsExact(r: Router, start: nat, used: set<WorkerId>, ids: seq<WorkerId>, c: Candidate)
    requires start <= |r.costs|
    ensures c in Gather(r, start, used, ids)
            <==> exists w :: w in ids && Eligible(r, start, used, w) && c == CandidateOf(r, start, w)
  {
    if ids != [] {
      var n := |ids| - 1;
      GatherIsExact(r, start, used, ids[..n], c);
      assert ids == ids[..n] + [ids[n]];
    }
  }

  function Rank(r: Router, start: nat, used: set<WorkerId>, ids: seq<WorkerId>): seq<Candidate>
    requires start <= |r.costs|
  {
    Sort(r, Gather(r, start, used, ids))
  }

  predicate Ranks(r: Router, start: nat, used: set<WorkerId>, c: Candidate)
    requires start <= |r.costs|
  {
    Eligible(r, start, used, c.worker.id) && c == CandidateOf(r, start, c.worker.id)
  }

  predicate Pooled(r: Router) { Identified(r.pool) }

  /** Ranking offers exactly the eligible workers, the most preferred first. */
  lemma RankOffers(r: Router, start: nat, used: set<WorkerId>, ids: seq<WorkerId>)
    requires start <= |r.costs| && Pooled(r) && Enumerates(r.pool, ids)
    ensures Sorted(r, Rank(r, start, used, ids))
    ensures forall c :: c in Rank(r, start, used, ids) <==> Ranks(r, start, used, c)
  {
    var gathered := Gather(r, start, used, ids);
    SortSorts(r, gathered);
    forall c ensures c in Rank(r, start, used, ids) <==> Ranks(r, start, used, c) {
      assert c in Rank(r, start, used, ids) <==> c in multiset(gathered);
      GatherIsExact(r, start, used, ids, c);
      if Ranks(r, start, used, c) {
        assert c.worker.id in ids;
      }
    }
  }

  // --- The search without the memo ---

  predicate AllRanked(r: Router, start: nat, used: set<WorkerId>, cs: seq<Candidate>)
    requires start <= |r.costs|
  {
    forall c :: c in cs ==> Ranks(r, start, used, c)
  }

  function Search(r: Router, ids: seq<WorkerId>, start: nat, used: set<WorkerId>): Option<Route>
    requires start <= |r.costs| && Pooled(r) && Enumerates(r.pool, ids)
    decreases |r.costs| - start, 1, 0
  {
    if start == |r.costs| then Some([])
    else
      RankOffers(r, start, used, ids);
      TryEach(r, ids, start, used, Rank(r, start, used, ids))
  }

  function SpanOf(start: nat, c: Candidate): Span
    requires c.maxSpan >= 1
  {
    Span(c.worker.id, start, start + c.maxSpan - 1)
  }

  /** The first candidate whose longest span leaves a suffix that can be routed. */
  function TryEach(r: Router, ids: seq<WorkerId>, start: nat, used: set<WorkerId>, cs: seq<Candidate>): Option<Route>
    requires start < |r.costs| && Pooled(r) && Enumerates(r.pool, ids) && AllRanked(r, start, used, cs)
    decreases |r.costs| - start, 0, |cs|
  {
    if cs == [] then None
    else
      assert cs[0] in cs;
      match Search(r, ids, start + cs[0].maxSpan, used + {cs[0].worker.id})
      case Some(suffix) => Some([SpanOf(start, cs[0])] + suffix)
      case None => TryEach(r, ids, start, used, cs[1..])
  }

  lemma TryEachUnfolds(r: Router, ids: seq<WorkerId>, start: nat, used: set<WorkerId>, cs: seq<Candidate>)
    requires start < |r.costs| && Pooled(r) && Enumerates(r.pool, ids) && AllRanked(r, start, used, cs) && cs != []
    ensures Ranks(r, start, used, cs[0]) && cs[0].maxSpan >= 1 && start + cs[0].maxSpan <= |r.costs|
    ensures AllRanked(r, start, used, cs[1..])
    ensures TryEach(r, ids, start, used, cs)
            == match Search(r, ids, start + cs[0].maxSpan, used + {cs[0].worker.id})
               case Some(suffix) => Some([SpanOf(start, cs[0])] + suffix)
               case None => TryEach(r, ids, start, used, cs[1..])
  {
    hide Search, Rank, Pooled, Enumerates;
    assert cs[0] in cs;
  }

  lemma TryEachStops(r: Router, ids: seq<WorkerId>, start: nat, used: set<WorkerId>)
    requires start < |r.costs| && Pooled(r) && Enumerates(r.pool, ids)
    ensures AllRanked(r, start, used, []) && TryEach(r, ids, start, used, []) == None
  {}

  // --- What a route is ---

  /** A contiguous span on an idle, unused worker that can hold it. */
  predicate Carries(r: Router, s: Span, start: nat, used: set<WorkerId>) {
    && s.first == start && s.first <= s.last < |r.costs|
    && s.worker in r.pool && r.pool[s.worker].status.Free? && s.worker !in used
    && Fits(r.costs, r.pool[s.worker].vramMB, s.first, s.last - s.first + 1)
  }

  /** Spans of any length that tile the segments from `start` on, each on a worker of its own. */
  predicate Tiles(r: Router, route: Route, start: nat, used: set<WorkerId>)
    decreases |route|
  {
    if route == [] then start == |r.costs|
    else Carries(r, route[0], start, used) && Tiles(r, route[1..], route[0].last + 1, used + {route[0].worker})
  }

  lemma CandidateCarries(r: Router, start: nat, used: set<WorkerId>, c: Candidate)
    requires start < |r.costs| && Ranks(r, start, used, c)
    ensures Carries(r, SpanOf(start, c), start, used)
  {}

  /** A route that is found tiles the suffix. */
  lemma {:induction false} SearchIsSound(r: Router, ids: seq<WorkerId>, start: nat, used: set<WorkerId>)
    requires start <= |r.costs| && Pooled(r) && Enumerates(r.pool, ids)
    ensures Search(r, ids, start, used).Some? ==> Tiles(r, Search(r, ids, start, used).value, start, used)
    decreases |r.costs| - start, 1, 0
  {
    if start < |r.costs| {
      RankOffers(r, start, used, ids);
      TryEachIsSound(r, ids, start, used, Rank(r, start, used, ids));
    }
  }

  lemma {:induction false} TryEachIsSound(r: Router, ids: seq<WorkerId>, start: nat, used: set<WorkerId>,
                                          cs: seq<Candidate>)
    requires start < |r.costs| && Pooled(r) && Enumerates(r.pool, ids) && AllRanked(r, start, used, cs)
    ensures TryEach(r, ids, start, used, cs).Some? ==> Tiles(r, TryEach(r, ids, start, used, cs).value, start, used)
    decreases |r.costs| - start, 0, |cs|
  {
    hide TryEach, Search, Rank, Ranks, AllRanked, Pooled, Enumerates, Carries;
    if cs == [] {
      TryEachStops(r, ids, start, used);
    } else {
      TryEachUnfolds(r, ids, start, used, cs);
      SearchIsSound(r, ids, start + cs[0].maxSpan, used + {cs[0].worker.id});
      match Search(r, ids, start + cs[0].maxSpan, used + {cs[0].worker.id})
      case Some(suffix) =>
        CandidateCarries(r, start, used, cs[0]);
        assert ([SpanOf(start, cs[0])] + suffix)[1..] == suffix;
      case None => TryEachIsSound(r, ids, start, used, cs[1..]);
    }
  }

  // --- Taking the longest span loses nothing ---

  /** A tiling that starts earlier can be cut to start later, on workers it already uses. */
  lemma {:induction false} TilingCuts(r: Router, route: Route, start: nat, later: nat, used: set<WorkerId>)
    returns (cut: Route)
    requires Tiles(r, route, start, used) && start <= later <= |r.costs|
    ensures Tiles(r, cut, later, used)
    decreases |route|
  {
    if route == [] || start == later {
      cut := route;
    } else {
      var head := route[0];
      if head.last < later {
        cut := TilingCuts(r, route[1..], head.last + 1, later, used + {head.worker});
        TilingForgets(r, cut, later, used, head.worker);
      } else {
        FitsShrinks(r.costs, r.pool[head.worker].vramMB, head.first, head.last - head.first + 1, later,
                    head.last - later + 1);
        cut := [head.(first := later)] + route[1..];
        assert cut[1..] == route[1..];
      }
    }
  }

  /** A tiling that avoids more workers avoids fewer. */
  lemma {:induction false} TilingForgets(r: Router, route: Route, start: nat, used: set<WorkerId>, w: WorkerId)
    requires Tiles(r, route, start, used + {w})
    ensures Tiles(r, route, start, used)
    decreases |route|
  {
    if route != [] {
      assert used + {w} + {route[0].worker} == used + {route[0].worker} + {w};
      TilingForgets(r, route[1..], route[0].last + 1, used + {route[0].worker}, w);
    }
  }

  /**
   * The exchange: if the suffix can be tiled starting with some worker, it can
   * be tiled with that worker's longest span first.
   */
  lemma LongestSpanSuffices(r: Router, route: Route, start: nat, used: set<WorkerId>)
    returns (c: Candidate, rest: Route)
    requires start < |r.costs| && Pooled(r) && Tiles(r, route, start, used)
    ensures Ranks(r, start, used, c)
    ensures Tiles(r, rest, start + c.maxSpan, used + {c.worker.id})
  {
    var head := route[0];
    c := CandidateOf(r, start, head.worker);
    assert Fits(r.costs, r.pool[head.worker].vramMB, start, head.last - head.first + 1);
    rest := TilingCuts(r, route[1..], head.last + 1, start + c.maxSpan, used + {head.worker});
  }

  /** If any tiling exists, of whatever spans, the search finds a route. */
  lemma {:induction false} SearchIsComplete(r: Router, ids: seq<WorkerId>, start: nat, used: set<WorkerId>,
                                            route: Route)
    requires start <= |r.costs| && Pooled(r) && Enumerates(r.pool, ids) && Tiles(r, route, start, used)
    ensures Search(r, ids, start, used).Some?
    decreases |r.costs| - start, 1, 0
  {
    if start < |r.costs| {
      RankOffers(r, start, used, ids);
      var c, rest := LongestSpanSuffices(r, route, start, used);
      TryEachIsComplete(r, ids, start, used, Rank(r, start, used, ids), c, rest);
    }
  }

  lemma {:induction false} TryEachIsComplete(r: Router, ids: seq<WorkerId>, start: nat, used: set<WorkerId>,
                                             cs: seq<Candidate>,
                                             c: Candidate, rest: Route)
    requires start < |r.costs| && Pooled(r) && Enumerates(r.pool, ids) && AllRanked(r, start, used, cs)
    requires c in cs && Tiles(r, rest, start + c.maxSpan, used + {c.worker.id})
    ensures TryEach(r, ids, start, used, cs).Some?
    decreases |r.costs| - start, 0, |cs|
  {
    hide TryEach, Search, Rank, Ranks, AllRanked, Pooled, Enumerates, Tiles;
    TryEachUnfolds(r, ids, start, used, cs);
    if c == cs[0] {
      SearchIsComplete(r, ids, start + c.maxSpan, used + {c.worker.id}, rest);
    } else {
      TryEachIsComplete(r, ids, start, used, cs[1..], c, rest);
    }
  }

  ghost predicate Routable(r: Router, start: nat, used: set<WorkerId>) {
    exists route :: Tiles(r, route, start, used)
  }

  /**
   * The router answers null exactly when no tiling of the suffix into contiguous
   * spans on distinct idle workers fits their memory, maximal spans or not; and
   * a route it answers is such a tiling.
   */
  lemma RouteIffRoutable(r: Router, ids: seq<WorkerId>, start: nat, used: set<WorkerId>)
    requires start <= |r.costs| && Pooled(r) && Enumerates(r.pool, ids)
    ensures Search(r, ids, start, used).Some? <==> Routable(r, start, used)
    ensures Search(r, ids, start, used).Some? ==> Tiles(r, Search(r, ids, start, used).value, start, used)
  {
    SearchIsSound(r, ids, start, used);
    if Routable(r, start, used) {
      var route :| Tiles(r, route, start, used);
      SearchIsComplete(r, ids, start, used, route);
    }
  }

  /**
   * Among the candidates, the route starts with the most preferred one that does
   * not strand the suffix: everyone ranked before it would have.
   */
  lemma {:induction false} RouteIsPreferred(r: Router, ids: seq<WorkerId>, start: nat, used: set<WorkerId>,
                                            cs: seq<Candidate>)
      returns (i: nat)
    requires start < |r.costs| && Pooled(r) && Enumerates(r.pool, ids) && AllRanked(r, start, used, cs)
    requires TryEach(r, ids, start, used, cs).Some?
    ensures i < |cs| && cs[i].maxSpan >= 1 && TryEach(r, ids, start, used, cs).value != []
    ensures TryEach(r, ids, start, used, cs).value[0] == SpanOf(start, cs[i]) && start + cs[i].maxSpan <= |r.costs|
    ensures Search(r, ids, start + cs[i].maxSpan, used + {cs[i].worker.id})
         == Some(TryEach(r, ids, start, used, cs).value[1..])
    ensures forall j :: 0 <= j < i ==> !Routable(r, start + cs[j].maxSpan, used + {cs[j].worker.id})
    decreases |cs|
  {
    hide TryEach, Search, Rank, Ranks, AllRanked, Pooled, Enumerates, Tiles, Routable;
    TryEachStops(r, ids, start, used);
    TryEachUnfolds(r, ids, start, used, cs);
    RouteIffRoutable(r, ids, start + cs[0].maxSpan, used + {cs[0].worker.id});
    if Search(r, ids, start + cs[0].maxSpan, used + {cs[0].worker.id}).Some? {
      i := 0;
    } else {
      var k := RouteIsPreferred(r, ids, start, used, cs[1..]);
      i := k + 1;
      forall j | 0 <= j < i ensures !Routable(r, start + cs[j].maxSpan, used + {cs[j].worker.id}) {
        if j > 0 {
          assert cs[j] == cs[1..][j - 1];
        }
      }
    }
  }

  // --- Which route it is ---

  /** How far a worker gets from here. */
  function Reach(r: Router, start: nat, w: WorkerId): nat
    requires start <= |r.costs| && w in r.pool
  {
    MaxSpan(r.costs, r.pool[w].vramMB, start)
  }

  /**
   * One worker goes before another: for what the ledger says of their longest spans
   * from here, where there is a ledger, in prefix, then resident, then missing bytes;
   * and then for its tier, its span, its memory and its identifier.
   */
  predicate Outranks(r: Router, start: nat, v: WorkerId, w: WorkerId)
    requires start <= |r.costs| && v in r.pool && w in r.pool
  {
    var a, b := r.locality(v, start, Reach(r, start, v)), r.locality(w, start, Reach(r, start, w));
    var x, y := r.pool[v], r.pool[w];
    if r.tracked && a.prefix != b.prefix then a.prefix > b.prefix
    else if r.tracked && a.resident != b.resident then a.resident > b.resident
    else if r.tracked && a.missing != b.missing then a.missing < b.missing
    else if x.tier != y.tier then x.tier < y.tier
    else if Reach(r, start, v) != Reach(r, start, w) then Reach(r, start, v) > Reach(r, start, w)
    else if x.vramMB != y.vramMB then x.vramMB > y.vramMB
    else r.order(v) < r.order(w)
  }

  /** The worker is free and unused, and taking its longest span from here strands nothing. */
  ghost predicate MayLead(r: Router, start: nat, used: set<WorkerId>, w: WorkerId)
    requires start <= |r.costs|
  {
    && w in r.pool && r.pool[w].status.Free? && w !in used && Reach(r, start, w) >= 1
    && Routable(r, start + Reach(r, start, w), used + {w})
  }

  /** Of those that may lead, no one outranks this one. */
  ghost predicate LeadsBest(r: Router, start: nat, used: set<WorkerId>, w: WorkerId)
    requires start <= |r.costs|
  {
    MayLead(r, start, used, w) && forall v :: v in r.pool && MayLead(r, start, used, v) ==> !Outranks(r, start, v, w)
  }

  /** Span by span, the route takes the longest span of the best worker that may lead there. */
  ghost predicate BestRoute(r: Router, route: Route, start: nat, used: set<WorkerId>)
    requires start <= |r.costs|
    decreases |route|
  {
    if route == [] then start == |r.costs|
    else
      var w := route[0].worker;
      && start < |r.costs| && LeadsBest(r, start, used, w)
      && route[0] == Span(w, start, start + Reach(r, start, w) - 1)
      && BestRoute(r, route[1..], start + Reach(r, start, w), used + {w})
  }

  /** What a candidate carries: the pooled worker, how far it gets, and what the ledger says of that span. */
  lemma CandidatesAreTheWorkers(r: Router, start: nat, used: set<WorkerId>, ids: seq<WorkerId>, c: Candidate)
    requires start <= |r.costs| && Pooled(r) && Enumerates(r.pool, ids) && c in Rank(r, start, used, ids)
    ensures var w := c.worker.id;
            && w in r.pool && c.worker == r.pool[w] && c.worker.status.Free? && w !in used
            && c.maxSpan == Reach(r, start, w) >= 1
            && (r.tracked ==> c.locality == r.locality(w, start, c.maxSpan))
  {
    RankOffers(r, start, used, ids);
  }

  /** The comparison of the candidates is that of the workers. */
  lemma RanksAsWorkers(r: Router, start: nat, v: WorkerId, w: WorkerId)
    requires start <= |r.costs| && Pooled(r) && v in r.pool && w in r.pool
    ensures StrictlyPreferred(r, CandidateOf(r, start, v), CandidateOf(r, start, w)) <==> Outranks(r, start, v, w)
  {
    var a, b := CandidateOf(r, start, v), CandidateOf(r, start, w);
    WhatDecides(r, a, b);
    WhatDecides(r, b, a);
  }

  /**
   * A route that is found starts with the longest span of the best worker that may lead, and goes
   * on as found from there.
   */
  lemma RouteLeadsBest(r: Router, ids: seq<WorkerId>, start: nat, used: set<WorkerId>)
    requires start < |r.costs| && Pooled(r) && Enumerates(r.pool, ids) && Search(r, ids, start, used).Some?
    ensures var route := Search(r, ids, start, used).value;
            && route != []
            && LeadsBest(r, start, used, route[0].worker)
            && route[0] == Span(route[0].worker, start, start + Reach(r, start, route[0].worker) - 1)
            && Search(r, ids, start + Reach(r, start, route[0].worker), used + {route[0].worker}) == Some(route[1..])
  {
    hide TryEach, Search, Rank, Enumerates, Tiles, Routable, Preferred, Outranks;
    var cs := Rank(r, start, used, ids);
    SearchRanks(r, ids, start, used);
    RankOffers(r, start, used, ids);
    var i := RouteIsPreferred(r, ids, start, used, cs);
    var w := cs[i].worker.id;
    assert cs[i] in cs;
    RouteIffRoutable(r, ids, start + cs[i].maxSpan, used + {w});
    forall v | v in r.pool && MayLead(r, start, used, v) ensures !Outranks(r, start, v, w) {
      var c := CandidateOf(r, start, v);
      assert Ranks(r, start, used, c);
      var j :| 0 <= j < |cs| && cs[j] == c;
      assert Preferred(r, cs[i], c) by {
        PreferredIsTotal(r, c, c);
      }
      RanksAsWorkers(r, start, v, w);
    }
  }

  /** The whole route is the best one, span by span. */
  lemma {:induction false} RouteIsBest(r: Router, ids: seq<WorkerId>, start: nat, used: set<WorkerId>)
    requires start <= |r.costs| && Pooled(r) && Enumerates(r.pool, ids)
    ensures Search(r, ids, start, used).Some? ==> BestRoute(r, Search(r, ids, start, used).value, start, used)
    decreases |r.costs| - start
  {
    hide TryEach, Rank, Enumerates, Tiles, Routable, Outranks, LeadsBest;
    if start < |r.costs| && Search(r, ids, start, used).Some? {
      hide Search;
      RouteLeadsBest(r, ids, start, used);
      var w := Search(r, ids, start, used).value[0].worker;
      LeadersReach(r, start, used, w);
      RouteIsBest(r, ids, start + Reach(r, start, w), used + {w});
    }
  }

  lemma LeadersReach(r: Router, start: nat, used: set<WorkerId>, w: WorkerId)
    requires start <= |r.costs| && LeadsBest(r, start, used, w)
    ensures w in r.pool && Reach(r, start, w) >= 1
  {}

  /** No two workers of the pool have the same place in the collation order. */
  predicate Collated(r: Router) {
    forall v, w :: v in r.pool && w in r.pool && r.order(v) == r.order(w) ==> v == w
  }

  /** Where the collation order tells the workers apart there is one best route. */
  lemma {:induction false} BestRouteIsUnique(r: Router, a: Route, b: Route, start: nat, used: set<WorkerId>)
    requires start <= |r.costs| && Collated(r) && BestRoute(r, a, start, used) && BestRoute(r, b, start, used)
    ensures a == b
    decreases |a|
  {
    hide Routable;
    if a != [] {
      assert b != [];
      var v, w := a[0].worker, b[0].worker;
      assert !Outranks(r, start, v, w) && !Outranks(r, start, w, v);
      assert v == w;
      BestRouteIsUnique(r, a[1..], b[1..], start + Reach(r, start, v), used + {v});
      assert a == [a[0]] + a[1..] && b == [b[0]] + b[1..];
    }
  }

  /** A worker that may lead takes its longest span, and the rest can be tiled: so can the whole suffix. */
  lemma LeadersRoute(r: Router, start: nat, used: set<WorkerId>, w: WorkerId)
    requires start < |r.costs| && MayLead(r, start, used, w)
    ensures Routable(r, start, used)
  {
    var n := Reach(r, start, w);
    var rest :| Tiles(r, rest, start + n, used + {w});
    var route := [Span(w, start, start + n - 1)] + rest;
    assert route[1..] == rest;
    assert Tiles(r, route, start, used);
  }

  /** The route that is answered is the best one, and if there is a best one it is answered. */
  lemma RouteIsTheBest(r: Router, ids: seq<WorkerId>, start: nat, used: set<WorkerId>, route: Route)
    requires start <= |r.costs| && Pooled(r) && Enumerates(r.pool, ids) && Collated(r)
    ensures Search(r, ids, start, used) == Some(route) <==> BestRoute(r, route, start, used)
  {
    hide TryEach, Rank, Enumerates, Tiles, Routable, Outranks, Reach;
    RouteIsBest(r, ids, start, used);
    if BestRoute(r, route, start, used) {
      if route != [] {
        LeadersRoute(r, start, used, route[0].worker);
        RouteIffRoutable(r, ids, start, used);
      }
      BestRouteIsUnique(r, route, Search(r, ids, start, used).value, start, used);
    }
  }

  // --- The search as it runs ---

  /** Walk until the next segment would exceed the worker's memory. */
  method ComputeMaximumSpan(costs: seq<nat>, vramMB: nat, start: nat) returns (length: nat)
    requires start <= |costs|
    ensures length == MaxSpan(costs, vramMB, start)
  {
    var consumed := 0;
    length := 0;
    for index := start to |costs|
      invariant length == index - start && consumed == Sum(costs, start, index) && consumed <= vramMB
    {
      if consumed + costs[index] > vramMB {
        StopsFitting(costs, vramMB, start, length);
        GreatestIsUnique(costs, vramMB, start, length, MaxSpan(costs, vramMB, start));
        return;
      }
      consumed := consumed + costs[index];
      length := length + 1;
    }
    StopsFitting(costs, vramMB, start, length);
    GreatestIsUnique(costs, vramMB, start, length, MaxSpan(costs, vramMB, start));
  }

  /** Collect the idle, unused workers that can hold a segment, then sort them. */
  method RankWorkers(r: Router, ids: seq<WorkerId>, start: nat, used: set<WorkerId>) returns (ranked: seq<Candidate>)
    requires start <= |r.costs| && Enumerates(r.pool, ids)
    ensures ranked == Rank(r, start, used, ids)
  {
    var candidates: seq<Candidate> := [];
    for i := 0 to |ids|
      invariant candidates == Gather(r, start, used, ids[..i])
    {
      assert ids[..i + 1][..i] == ids[..i] && ids[..i + 1][i] == ids[i];
      assert ids[i] in ids;
      var worker := r.pool[ids[i]];
      if worker.status.Free? && ids[i] !in used {
        var maxSpan := ComputeMaximumSpan(r.costs, worker.vramMB, start);
        if maxSpan >= 1 {
          candidates := candidates
              + [Candidate(worker, maxSpan, if r.tracked then r.locality(ids[i], start, maxSpan)
                           else Locality(0, 0, 0))];
        }
      }
    }
    assert ids[..|ids|] == ids;
    ranked := Sort(r, candidates);
  }

  /** The dead states found so far, shared by every branch of one search. */
  class FailedStates {
    var states: set<(nat, set<WorkerId>)>

    constructor ()
      ensures states == {}
    {
      states := {};
    }
  }

  /** Only states from which nothing can be routed are ever in the set. */
  ghost predicate OnlyDead(r: Router, ids: seq<WorkerId>, states: set<(nat, set<WorkerId>)>)
    requires Pooled(r) && Enumerates(r.pool, ids)
  {
    forall state :: state in states ==> state.0 <= |r.costs| && Search(r, ids, state.0, state.1) == None
  }

  lemma SearchRanks(r: Router, ids: seq<WorkerId>, start: nat, used: set<WorkerId>)
    requires start < |r.costs| && Pooled(r) && Enumerates(r.pool, ids)
    ensures AllRanked(r, start, used, Rank(r, start, used, ids))
    ensures Search(r, ids, start, used) == TryEach(r, ids, start, used, Rank(r, start, used, ids))
  {
    RankOffers(r, start, used, ids);
  }

  lemma TryEachSteps(r: Router, ids: seq<WorkerId>, start: nat, used: set<WorkerId>, cs: seq<Candidate>, i: nat)
    requires start < |r.costs| && Pooled(r) && Enumerates(r.pool, ids) && i <= |cs|
             && AllRanked(r, start, used, cs[i..])
    ensures i == |cs| ==> TryEach(r, ids, start, used, cs[i..]) == None
    ensures i < |cs| ==>
              && Ranks(r, start, used, cs[i]) && cs[i].maxSpan >= 1 && start + cs[i].maxSpan <= |r.costs|
              && AllRanked(r, start, used, cs[i + 1..])
              && TryEach(r, ids, start, used, cs[i..])
                 == match Search(r, ids, start + cs[i].maxSpan, used + {cs[i].worker.id})
                    case Some(suffix) => Some([SpanOf(start, cs[i])] + suffix)
                    case None => TryEach(r, ids, start, used, cs[i + 1..])
  {
    hide TryEach, Search, Rank, Ranks, AllRanked, Pooled, Enumerates;
    if i < |cs| {
      TryEachUnfolds(r, ids, start, used, cs[i..]);
      assert cs[i..][0] == cs[i] && cs[i..][1..] == cs[i + 1..];
    } else {
      TryEachStops(r, ids, start, used);
      assert cs[i..] == [];
    }
  }

  /** With the shared set, the search finds exactly what it would find without it. */
  method SearchRoute(r: Router, ids: seq<WorkerId>, start: nat, used: set<WorkerId>, failed: FailedStates)
    returns (route: Option<Route>)
    requires start <= |r.costs| && Pooled(r) && Enumerates(r.pool, ids) && OnlyDead(r, ids, failed.states)
    modifies failed
    ensures route == Search(r, ids, start, used)
    ensures OnlyDead(r, ids, failed.states) && old(failed.states) <= failed.states
    decreases |r.costs| - start
  {
    hide TryEach, Rank, Ranks, AllRanked, Enumerates, Pooled;
    if start == |r.costs| { return Some([]); }
    if (start, used) in failed.states { return None; }
    var candidates := RankWorkers(r, ids, start, used);
    SearchRanks(r, ids, start, used);
    hide Search;
    assert candidates[0..] == candidates;
    for i := 0 to |candidates|
      invariant OnlyDead(r, ids, failed.states) && old(failed.states) <= failed.states
      invariant AllRanked(r, start, used, candidates[i..])
      invariant Search(r, ids, start, used) == TryEach(r, ids, start, used, candidates[i..])
    {
      var selected := candidates[i];
      TryEachSteps(r, ids, start, used, candidates, i);
      var suffix := SearchRoute(r, ids, start + selected.maxSpan, used + {selected.worker.id}, failed);
      if suffix.Some? {
        return Some([SpanOf(start, selected)] + suffix.value);
      }
    }
    TryEachSteps(r, ids, start, used, candidates, |candidates|);
    failed.states := failed.states + {(start, used)};
    return None;
  }

  datatype RouteAnswer = BadStart | NoRoute | Routed(route: Route)

  /** A route for the suffix from `start`: null exactly when the idle workers cannot cover it. */
  method ComputeRoute(r: Router, ids: seq<WorkerId>, start: int) returns (answer: RouteAnswer)
    requires Pooled(r) && Enumerates(r.pool, ids)
    ensures answer == BadStart <==> !(0 <= start <= |r.costs|)
    ensures answer == NoRoute <==> 0 <= start <= |r.costs| && !Routable(r, start, {})
    ensures answer.Routed? ==> 0 <= start <= |r.costs| && Tiles(r, answer.route, start, {})
    ensures 0 <= start <= |r.costs| ==> (answer.Routed? <==> Search(r, ids, start, {}).Some?)
    ensures answer.Routed? ==> Search(r, ids, start, {}) == Some(answer.route)
    ensures answer.Routed? ==> BestRoute(r, answer.route, start, {})
  {
    if start < 0 || start > |r.costs| { return BadStart; }
    var failed := new FailedStates();
    var route := SearchRoute(r, ids, start, {}, failed);
    RouteIffRoutable(r, ids, start, {});
    RouteIsBest(r, ids, start, {});
    return if route.Some? then Routed(route.value) else NoRoute;
  }
}
