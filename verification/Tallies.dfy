/** Listings of a map: every value as often as the map holds it, in whatever order. */
module Tallies {

  ghost function AnyKey<K, V>(m: map<K, V>): (k: K)
    requires m != map[]
    ensures k in m
  {
    var k :| k in m;
    k
  }

  /** The values of a map, each as often as it is there. */
  ghost function Values<K, V>(m: map<K, V>): multiset<V>
    decreases |m|
  {
    if m == map[] then multiset{} else
      var k := AnyKey(m);
      Smaller(m, k);
      multiset{m[k]} + Values(m - {k})
  }

  lemma Smaller<K, V>(m: map<K, V>, k: K)
    requires k in m
    ensures |m - {k}| < |m|
  {
    assert (m - {k}).Keys == m.Keys - {k};
  }

  /** Any key may be the one taken out. */
  lemma {:induction false} ValuesSplit<K, V>(m: map<K, V>, k: K)
    requires k in m
    ensures Values(m) == multiset{m[k]} + Values(m - {k})
    decreases |m|
  {
    var first := AnyKey(m);
    if first != k {
      var a, b, c := m - {first}, m - {k}, m - {first} - {k};
      Smaller(m, first);
      Smaller(m, k);
      assert b - {first} == c;
      ValuesSplit(a, k);
      ValuesSplit(b, first);
      calc {
        Values(m);
        multiset{m[first]} + Values(a);
        multiset{m[first]} + (multiset{m[k]} + Values(c));
        multiset{m[k]} + (multiset{m[first]} + Values(c));
        multiset{m[k]} + Values(b);
      }
    }
  }

  lemma ValuesAdd<K, V>(m: map<K, V>, k: K, v: V)
    requires k !in m
    ensures Values(m[k := v]) == Values(m) + multiset{v}
  {
    hide Values;
    ValuesSplit(m[k := v], k);
    assert m[k := v] - {k} == m;
  }

  /** A value is tallied exactly when the map holds it. */
  lemma {:induction false} ValuesHold<K, V>(m: map<K, V>, v: V)
    ensures v in Values(m) <==> exists k :: k in m && m[k] == v
    decreases |m|
  {
    if m != map[] {
      var k :| k in m;
      ValuesSplit(m, k);
      Smaller(m, k);
      ValuesHold(m - {k}, v);
      if q :| q in m && m[q] == v && q != k {
        assert q in m - {k} && (m - {k})[q] == v;
      }
    }
  }

  lemma NothingHeld<K, V>()
    ensures Values<K, V>(map[]) == multiset{}
  {}

  /** Every key once. */
  ghost predicate Enumerates<K(!new), V>(keys: seq<K>, m: map<K, V>) {
    && (forall k :: k in keys <==> k in m)
    && (forall i, j :: 0 <= i < j < |keys| ==> keys[i] != keys[j])
  }

  lemma EnumerationDrops<K(!new), V>(keys: seq<K>, m: map<K, V>)
    requires Enumerates(keys, m) && keys != []
    ensures keys[|keys| - 1] in m && Enumerates(keys[..|keys| - 1], m - {keys[|keys| - 1]})
  {
    var n := |keys| - 1;
    assert keys[n] in keys;
    forall q ensures q in keys[..n] <==> q in m - {keys[n]} {
      if q in keys && q != keys[n] {
        var i :| 0 <= i < |keys| && keys[i] == q;
        assert keys[..n][i] == q;
      }
    }
  }

  /** A list beside an enumeration of the keys is a listing. */
  lemma {:induction false} ParallelIsListing<K(!new), V>(keys: seq<K>, list: seq<V>, m: map<K, V>)
    requires Enumerates(keys, m) && |list| == |keys|
    requires forall i :: 0 <= i < |keys| ==> keys[i] in m && list[i] == m[keys[i]]
    ensures multiset(list) == Values(m)
    decreases |keys|
  {
    hide Values, Enumerates;
    if keys == [] {
      NothingEnumerated(keys, m);
    } else {
      var n := |keys| - 1;
      var k := keys[n];
      EnumerationDrops(keys, m);
      ValuesSplit(m, k);
      LastIsNew(keys, m);
      ParallelIsListing(keys[..n], list[..n], m - {k});
      assert list == list[..n] + [list[n]];
    }
  }

  lemma NothingEnumerated<K(!new), V>(keys: seq<K>, m: map<K, V>)
    requires Enumerates(keys, m) && keys == []
    ensures Values(m) == multiset{}
  {
    assert m == map[];
  }

  lemma LastIsNew<K(!new), V>(keys: seq<K>, m: map<K, V>)
    requires Enumerates(keys, m) && keys != []
    ensures forall i :: 0 <= i < |keys| - 1 ==> keys[i] != keys[|keys| - 1]
  {}

  /** Renaming the keys changes no tally. */
  lemma {:induction false} ValuesRenamed<K, L, V>(m: map<K, V>, n: map<L, V>, name: K -> L)
    requires forall k :: k in m ==> name(k) in n && n[name(k)] == m[k]
    requires forall l :: l in n ==> exists k :: k in m && name(k) == l
    requires forall j, k :: j in m && k in m && name(j) == name(k) ==> j == k
    ensures Values(m) == Values(n)
    decreases |m|
  {
    if m == map[] {
      assert n == map[];
    } else {
      var k :| k in m;
      ValuesSplit(m, k);
      ValuesSplit(n, name(k));
      Smaller(m, k);
      forall l | l in n - {name(k)} ensures exists j :: j in m - {k} && name(j) == l {
        var j :| j in m && name(j) == l;
        assert j in m - {k};
      }
      ValuesRenamed(m - {k}, n - {name(k)}, name);
    }
  }

  /** The entries whose value is wanted. */
  function Where<K, V>(m: map<K, V>, wanted: V -> bool): map<K, V> {
    map k | k in m && wanted(m[k]) :: m[k]
  }

  lemma WhereAll<K, V>(m: map<K, V>)
    ensures Where(m, v => true) == m
  {}

  /** Walk a map and list the values that are wanted. */
  method ListWhere<K(==), V>(m: map<K, V>, wanted: V -> bool) returns (list: seq<V>)
    ensures multiset(list) == Values(Where(m, wanted))
  {
    hide Values;
    list := [];
    var rest := m.Keys;
    ghost var seen: map<K, V> := map[];
    NothingHeld<K, V>();
    while rest != {}
      invariant rest <= m.Keys
      invariant forall k :: k in seen <==> k in m && k !in rest && wanted(m[k])
      invariant forall k :: k in seen ==> seen[k] == m[k]
      invariant multiset(list) == Values(seen)
      decreases rest
    {
      var k :| k in rest;
      rest := rest - {k};
      if wanted(m[k]) {
        ValuesAdd(seen, k, m[k]);
        list := list + [m[k]];
        seen := seen[k := m[k]];
      }
    }
    assert seen == Where(m, wanted);
  }

  /** The values of a map, in whatever order it lists them. */
  method ListAll<K(==), V>(m: map<K, V>) returns (list: seq<V>)
    ensures multiset(list) == Values(m)
  {
    WhereAll(m);
    list := ListWhere(m, v => true);
  }
}
