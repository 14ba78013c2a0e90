/** Sums over the values of a map, in no particular order. Go iterates a map in
    an unspecified order; a total accumulated over such an iteration is this
    function. */
module Sums {

  ghost function SumValues<K, V>(m: map<K, V>, g: V -> real): real
    decreases |m.Keys|
  {
    if m == map[] then 0.0
    else
      var k :| k in m;
      assert (m - {k}).Keys == m.Keys - {k};
      g(m[k]) + SumValues(m - {k}, g)
  }

  /** Any key may be taken out first. */
  lemma {:induction false} SumValuesRemove<K, V>(m: map<K, V>, g: V -> real, x: K)
    requires x in m
    ensures SumValues(m, g) == g(m[x]) + SumValues(m - {x}, g)
    decreases |m.Keys|
  {
    var k :| k in m && SumValues(m, g) == g(m[k]) + SumValues(m - {k}, g);
    if k != x {
      assert (m - {k}).Keys == m.Keys - {k};
      SumValuesRemove(m - {k}, g, x);
      assert (m - {x}).Keys == m.Keys - {x};
      SumValuesRemove(m - {x}, g, k);
      assert m - {k} - {x} == m - {x} - {k};
    }
  }

  /** Storing v under k replaces k's old term, if any, by g(v). */
  lemma SumValuesUpdate<K, V>(m: map<K, V>, k: K, v: V, g: V -> real)
    ensures SumValues(m[k := v], g) == SumValues(m, g) - (if k in m then g(m[k]) else 0.0) + g(v)
  {
    SumValuesRemove(m[k := v], g, k);
    assert m[k := v] - {k} == m - {k};
    if k in m {
      SumValuesRemove(m, g, k);
    } else {
      assert m - {k} == m;
    }
  }

  /** A sum of non-negative terms is non-negative. */
  lemma {:induction false} SumValuesNonNegative<K, V>(m: map<K, V>, g: V -> real)
    requires forall k :: k in m ==> g(m[k]) >= 0.0
    ensures SumValues(m, g) >= 0.0
    decreases |m.Keys|
  {
    if m != map[] {
      var k :| k in m;
      SumValuesRemove(m, g, k);
      assert (m - {k}).Keys == m.Keys - {k};
      SumValuesNonNegative(m - {k}, g);
    }
  }

  /** With non-negative terms, no single term exceeds the sum. */
  lemma SumValuesBounds<K, V>(m: map<K, V>, g: V -> real, x: K)
    requires x in m
    requires forall k :: k in m ==> g(m[k]) >= 0.0
    ensures 0.0 <= g(m[x]) <= SumValues(m, g)
  {
    SumValuesRemove(m, g, x);
    SumValuesNonNegative(m - {x}, g);
  }
}
