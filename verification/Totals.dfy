/** Sums over the values of a finite map, and how they follow a change of one key. */
module Totals {

  ghost function Total<K>(m: map<K, nat>): nat
    decreases |m|
  {
    if m == map[] then 0 else
      var k :| k in m;
      m[k] + Total(m - {k})
  }

  /** Any key may be taken out first. */
  lemma {:induction false} TotalRemove<K>(m: map<K, nat>, k: K)
    requires k in m
    ensures Total(m) == m[k] + Total(m - {k})
    decreases |m|
  {
    var first :| first in m && Total(m) == m[first] + Total(m - {first});
    if first != k {
      TotalRemove(m - {first}, k);
      TotalRemove(m - {k}, first);
      assert m - {first} - {k} == m - {k} - {first};
    }
  }

  lemma TotalUpdate<K>(m: map<K, nat>, k: K, v: nat)
    ensures Total(m[k := v]) == Total(m) - (if k in m then m[k] else 0) + v
  {
    var m' := m[k := v];
    TotalRemove(m', k);
    assert m' - {k} == m - {k};
    if k in m {
      TotalRemove(m, k);
    } else {
      assert m - {k} == m;
    }
  }

  lemma TotalAtLeast<K>(m: map<K, nat>, k: K)
    requires k in m
    ensures m[k] <= Total(m)
  {
    TotalRemove(m, k);
  }

  /** A map whose entries all appear in another one, with no greater value, has no greater sum. */
  lemma {:induction false} TotalMonotone<K>(small: map<K, nat>, large: map<K, nat>)
    requires forall k :: k in small ==> k in large && small[k] <= large[k]
    ensures Total(small) <= Total(large)
    decreases |small|
  {
    if small != map[] {
      var k :| k in small;
      TotalRemove(small, k);
      TotalRemove(large, k);
      TotalMonotone(small - {k}, large - {k});
    }
  }

  /** With no value greater, the sums are the same exactly when all the values are. */
  lemma TotalSameExactly<K>(small: map<K, nat>, large: map<K, nat>)
    requires small.Keys == large.Keys && forall k :: k in small ==> small[k] <= large[k]
    ensures Total(small) == Total(large) <==> small == large
  {
    if k :| k in small && small[k] < large[k] {
      TotalRemove(small, k);
      TotalRemove(large, k);
      TotalMonotone(small - {k}, large - {k});
    }
  }

  /** A sum splits when every value does. */
  lemma {:induction false} TotalSplit<K>(whole: map<K, nat>, a: map<K, nat>, b: map<K, nat>)
    requires whole.Keys == a.Keys == b.Keys
    requires forall k :: k in whole ==> whole[k] == a[k] + b[k]
    ensures Total(whole) == Total(a) + Total(b)
    decreases |whole|
  {
    if whole != map[] {
      var k :| k in whole;
      TotalRemove(whole, k);
      TotalRemove(a, k);
      TotalRemove(b, k);
      TotalSplit(whole - {k}, a - {k}, b - {k});
    } else {
      assert a == map[] && b == map[];
    }
  }
}
