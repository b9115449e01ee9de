/** Sums over contiguous windows of per-segment costs. */
module Windows {

  /** The cost of segments `lo` up to, but not including, `hi`. */
  function Sum(costs: seq<nat>, lo: nat, hi: nat): nat
    requires lo <= hi <= |costs|
    decreases hi - lo
  {
    if lo == hi then 0 else Sum(costs, lo, hi - 1) + costs[hi - 1]
  }

  lemma {:induction false} SumSplits(costs: seq<nat>, lo: nat, mid: nat, hi: nat)
    requires lo <= mid <= hi <= |costs|
    ensures Sum(costs, lo, hi) == Sum(costs, lo, mid) + Sum(costs, mid, hi)
    decreases hi
  {
    if mid < hi {
      SumSplits(costs, lo, mid, hi - 1);
    }
  }

  /** A smaller window never costs more. */
  lemma SumShrinks(costs: seq<nat>, lo: nat, hi: nat, lo': nat, hi': nat)
    requires lo <= lo' <= hi' <= hi <= |costs|
    ensures Sum(costs, lo', hi') <= Sum(costs, lo, hi)
  {
    SumSplits(costs, lo, lo', hi);
    SumSplits(costs, lo', hi', hi);
  }

  predicate Fits(costs: seq<nat>, budget: nat, lo: nat, n: nat) {
    lo + n <= |costs| && Sum(costs, lo, lo + n) <= budget
  }

  /** A length is the greatest that fits. */
  ghost predicate Greatest(costs: seq<nat>, budget: nat, lo: nat, n: nat) {
    Fits(costs, budget, lo, n) && forall m: nat :: Fits(costs, budget, lo, m) ==> m <= n
  }

  /** Walk on from `lo` until the next segment would no longer fit. */
  function MaxSpan(costs: seq<nat>, budget: nat, lo: nat): (n: nat)
    requires lo <= |costs|
    ensures Greatest(costs, budget, lo, n)
  {
    Extend(costs, budget, lo, 0)
  }

  function Extend(costs: seq<nat>, budget: nat, lo: nat, n: nat): (m: nat)
    requires Fits(costs, budget, lo, n)
    ensures Greatest(costs, budget, lo, m)
    decreases |costs| - lo - n
  {
    if lo + n < |costs| && Sum(costs, lo, lo + n) + costs[lo + n] <= budget
    then Extend(costs, budget, lo, n + 1)
    else
      StopsFitting(costs, budget, lo, n);
      n
  }

  lemma StopsFitting(costs: seq<nat>, budget: nat, lo: nat, n: nat)
    requires Fits(costs, budget, lo, n)
    requires lo + n < |costs| ==> budget < Sum(costs, lo, lo + n) + costs[lo + n]
    ensures Greatest(costs, budget, lo, n)
  {
    forall m: nat | Fits(costs, budget, lo, m) ensures m <= n {
      if n < m {
        SumShrinks(costs, lo, lo + m, lo, lo + n + 1);
      }
    }
  }

  lemma GreatestIsUnique(costs: seq<nat>, budget: nat, lo: nat, m: nat, n: nat)
    requires Greatest(costs, budget, lo, m) && Greatest(costs, budget, lo, n)
    ensures m == n
  {}

  /** Fitting is closed under shrinking from either end. */
  lemma FitsShrinks(costs: seq<nat>, budget: nat, lo: nat, n: nat, lo': nat, n': nat)
    requires Fits(costs, budget, lo, n) && lo <= lo' && lo' + n' <= lo + n
    ensures Fits(costs, budget, lo', n')
  {
    SumShrinks(costs, lo, lo + n, lo', lo' + n');
  }
}
