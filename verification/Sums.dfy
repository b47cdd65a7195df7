/** Sums of real weights over maps and sequences, and the few laws the accounting proofs need. */
module Sums {

  /** Sum of w(k, m[k]) over the whole map. The order of summation does not matter: see SumMapRemove. */
  ghost function SumMap<K, V>(m: map<K, V>, w: (K, V) -> real): real
    decreases |m|
  {
    if m == map[] then 0.0
    else
      var k :| k in m;
      assert |m - {k}| < |m| by { assert (m - {k}).Keys == m.Keys - {k}; }
      w(k, m[k]) + SumMap(m - {k}, w)
  }

  /** Any key may be split off. */
  lemma {:induction false} SumMapRemove<K, V>(m: map<K, V>, w: (K, V) -> real, k: K)
    requires k in m
    ensures SumMap(m, w) == w(k, m[k]) + SumMap(m - {k}, w)
    decreases |m|
  {
    var j :| j in m && SumMap(m, w) == w(j, m[j]) + SumMap(m - {j}, w);
    if j != k {
      assert |m - {j}| < |m| && |m - {k}| < |m| by {
        assert (m - {j}).Keys == m.Keys - {j};
        assert (m - {k}).Keys == m.Keys - {k};
      }
      SumMapRemove(m - {j}, w, k);
      SumMapRemove(m - {k}, w, j);
      assert m - {j} - {k} == m - {k} - {j};
    }
  }

  lemma SumMapInsert<K, V>(m: map<K, V>, w: (K, V) -> real, k: K, v: V)
    requires k !in m
    ensures SumMap(m[k := v], w) == SumMap(m, w) + w(k, v)
  {
    SumMapRemove(m[k := v], w, k);
    assert m[k := v] - {k} == m;
  }

  lemma {:induction false} SumMapNonNegative<K, V>(m: map<K, V>, w: (K, V) -> real)
    requires forall k | k in m :: w(k, m[k]) >= 0.0
    ensures SumMap(m, w) >= 0.0
    decreases |m|
  {
    if m != map[] {
      var k :| k in m;
      SumMapRemove(m, w, k);
      assert |m - {k}| < |m| by { assert (m - {k}).Keys == m.Keys - {k}; }
      SumMapNonNegative(m - {k}, w);
    }
  }

  /** Two weights that are ordered on every entry have ordered sums. */
  lemma {:induction false} SumMapMonotone<K, V>(m: map<K, V>, w: (K, V) -> real, u: (K, V) -> real)
    requires forall k | k in m :: w(k, m[k]) <= u(k, m[k])
    ensures SumMap(m, w) <= SumMap(m, u)
    decreases |m|
  {
    if m != map[] {
      var k :| k in m;
      SumMapRemove(m, w, k);
      SumMapRemove(m, u, k);
      assert |m - {k}| < |m| by { assert (m - {k}).Keys == m.Keys - {k}; }
      SumMapMonotone(m - {k}, w, u);
    }
  }

  lemma {:induction false} SumMapZero<K, V>(m: map<K, V>, w: (K, V) -> real)
    requires forall k | k in m :: w(k, m[k]) == 0.0
    ensures SumMap(m, w) == 0.0
    decreases |m|
  {
    if m != map[] {
      var k :| k in m;
      SumMapRemove(m, w, k);
      assert |m - {k}| < |m| by { assert (m - {k}).Keys == m.Keys - {k}; }
      SumMapZero(m - {k}, w);
    }
  }

  lemma SumMapCongruent<K, V>(m: map<K, V>, w: (K, V) -> real, u: (K, V) -> real)
    requires forall k | k in m :: w(k, m[k]) == u(k, m[k])
    ensures SumMap(m, w) == SumMap(m, u)
  {
    SumMapMonotone(m, w, u);
    SumMapMonotone(m, u, w);
  }

  /** Taking one key out of the part still to visit adds its entry to the part already visited. */
  lemma VisitEntry<K, V>(m: map<K, V>, rest: set<K>, k: K)
    requires k in rest && k in m
    ensures k !in m - rest
    ensures m - (rest - {k}) == (m - rest)[k := m[k]]
  {
  }

  function Last<T>(s: seq<T>): T
    requires |s| > 0
  {
    s[|s| - 1]
  }

  function Front<T>(s: seq<T>): seq<T>
    requires |s| > 0
  {
    s[..|s| - 1]
  }

  function Max(a: real, b: real): real {
    if a >= b then a else b
  }

  // ---------------------------------------------------------------- least elements

  predicate IsLeast(x: nat, s: set<nat>) {
    x in s && forall y | y in s :: x <= y
  }

  lemma {:induction false} LeastExists(s: set<nat>)
    requires s != {}
    ensures exists x :: IsLeast(x, s)
    decreases |s|
  {
    var x :| x in s;
    var rest := s - {x};
    assert s == rest + {x};
    if rest == {} {
      assert IsLeast(x, s);
    } else {
      LeastExists(rest);
      var y :| IsLeast(y, rest);
      assert IsLeast(if x <= y then x else y, s);
    }
  }
}
