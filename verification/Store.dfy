/**
  The key-value store under the relays: keys in byte order, a cursor that seeks and steps, and the
  scan over all keys with a prefix.
*/
module Store {
  /** Byte-wise lexicographic order. */
  predicate Less(a: string, b: string)
    decreases |a|
  {
    if b == [] then false
    else if a == [] then true
    else a[0] < b[0] || (a[0] == b[0] && Less(a[1..], b[1..]))
  }

  predicate StartsWith(key: string, prefix: string) {
    |prefix| <= |key| && key[..|prefix|] == prefix
  }

  ghost predicate Sorted(keys: seq<string>) {
    forall i, j :: 0 <= i < j < |keys| ==> Less(keys[i], keys[j])
  }

  lemma {:induction false} LessTrichotomy(a: string, b: string)
    ensures Less(a, b) || Less(b, a) || a == b
    ensures !(Less(a, b) && Less(b, a)) && !Less(a, a)
    decreases |a|
  {
    if a != [] {
      LessTrichotomy(a[1..], a[1..]);
      if b != [] && a[0] == b[0] {
        LessTrichotomy(a[1..], b[1..]);
        assert a == [a[0]] + a[1..] && b == [b[0]] + b[1..];
      }
    }
  }

  lemma {:induction false} LessTransitive(a: string, b: string, c: string)
    requires Less(a, b) && Less(b, c)
    ensures Less(a, c)
    decreases |a|
  {
    if a != [] && a[0] == b[0] == c[0] { LessTransitive(a[1..], b[1..], c[1..]); }
  }

  /** A key is never below its own prefix. */
  lemma {:induction false} PrefixBelow(key: string, prefix: string)
    requires StartsWith(key, prefix)
    ensures !Less(key, prefix)
    decreases |prefix|
  {
    if prefix != [] {
      assert key[0] == prefix[0];
      assert key[1..][..|prefix[1..]|] == prefix[1..];
      PrefixBelow(key[1..], prefix[1..]);
    }
  }

  /** The keys with a prefix form one stretch of the order that begins at the prefix. */
  lemma {:induction false} PrefixStretch(prefix: string, between: string, key: string)
    requires !Less(between, prefix) && Less(between, key) && StartsWith(key, prefix)
    ensures StartsWith(between, prefix)
    decreases |prefix|
  {
    if prefix != [] {
      assert key[0] == prefix[0] && between[0] == prefix[0];
      assert key[1..][..|prefix[1..]|] == prefix[1..];
      PrefixStretch(prefix[1..], between[1..], key[1..]);
      assert between[..|prefix|] == [between[0]] + between[1..][..|prefix[1..]|];
      assert prefix == [prefix[0]] + prefix[1..];
    }
  }

  /** A position in the sorted keys of a store, as it was when the cursor was made. */
  class Cursor<V> {
    const rows: map<string, V>
    const keys: seq<string>
    var pos: nat

    ghost predicate Ordered() {
      Sorted(keys) && forall k :: k in keys <==> k in rows
    }

    constructor (rows: map<string, V>, keys: seq<string>)
      requires Sorted(keys) && forall k :: k in keys <==> k in rows
      ensures Ordered() && this.rows == rows && this.keys == keys
    {
      this.rows, this.keys, pos := rows, keys, 0;
    }

    predicate AtKey()
      reads this
    {
      pos < |keys|
    }

    /** Go to the first key that is not below the target. */
    method Seek(target: string)
      requires Ordered()
      modifies this
      ensures pos <= |keys| && (forall i :: 0 <= i < pos ==> Less(keys[i], target))
      ensures (AtKey() ==> !Less(keys[pos], target))
    {
      pos := 0;
      while AtKey() && Less(keys[pos], target)
        invariant pos <= |keys| && forall i :: 0 <= i < pos ==> Less(keys[i], target)
        decreases |keys| - pos
      {
        pos := pos + 1;
      }
    }

    method Next()
      requires AtKey()
      modifies this
      ensures pos == old(pos) + 1
    {
      pos := pos + 1;
    }
  }

  /**
    From a cursor that sits on the first key not below the prefix, the matching keys run up to the first that
    does not match.
  */
  lemma StretchEnds<V>(c: Cursor<V>, prefix: string, start: nat, end: nat, i: nat)
    requires Sorted(c.keys) && start <= end <= |c.keys| && i < |c.keys| && StartsWith(c.keys[i], prefix)
    requires forall j :: 0 <= j < start ==> Less(c.keys[j], prefix)
    requires forall j :: start <= j < |c.keys| ==> !Less(c.keys[j], prefix)
    requires end < |c.keys| ==> !StartsWith(c.keys[end], prefix)
    ensures start <= i < end
  {
    PrefixBelow(c.keys[i], prefix);
    if end < i { PrefixStretch(prefix, c.keys[end], c.keys[i]); }
  }

  lemma NotBelowAfter(keys: seq<string>, target: string, start: nat)
    requires Sorted(keys) && start <= |keys| && (start < |keys| ==> !Less(keys[start], target))
    ensures forall j :: start <= j < |keys| ==> !Less(keys[j], target)
  {
    forall j | start < j < |keys| ensures !Less(keys[j], target) {
      if Less(keys[j], target) {
        assert Less(keys[start], keys[j]);
        LessTransitive(keys[start], keys[j], target);
      }
    }
  }

  /** Seek, then step while the key matches: the values found are exactly those of the keys with the prefix. */
  method GetAllByIterator<V(==)>(rows: map<string, V>, keys: seq<string>, prefix: string) returns (values: set<V>)
    requires Sorted(keys) && forall k :: k in keys <==> k in rows
    ensures values == set k | k in rows && StartsWith(k, prefix) :: rows[k]
  {
    values := {};
    var c := new Cursor(rows, keys);
    c.Seek(prefix);
    ghost var start := c.pos;
    NotBelowAfter(keys, prefix, start);
    while c.AtKey() && StartsWith(keys[c.pos], prefix)
      invariant start <= c.pos <= |keys|
      invariant forall j :: start <= j < c.pos ==> StartsWith(keys[j], prefix)
      invariant values == set j | start <= j < c.pos :: rows[keys[j]]
      decreases |keys| - c.pos
    {
      assert keys[c.pos] in keys;
      values := values + {rows[keys[c.pos]]};
      c.Next();
    }
    forall k | k in rows && StartsWith(k, prefix) ensures rows[k] in values {
      var i :| 0 <= i < |keys| && keys[i] == k;
      StretchEnds(c, prefix, start, c.pos, i);
    }
    forall j | start <= j < c.pos ensures keys[j] in rows && StartsWith(keys[j], prefix) {
      assert keys[j] in keys;
    }
  }

  // ---------- Every finite set of keys can be put in order ----------

  lemma {:induction false} LeastKey(keys: set<string>) returns (least: string)
    requires keys != {}
    ensures least in keys && forall k :: k in keys && k != least ==> Less(least, k)
    decreases |keys|
  {
    var k :| k in keys;
    var others := keys - {k};
    least := k;
    if others != {} {
      var m := LeastKey(others);
      LessTrichotomy(k, m);
      if Less(m, k) {
        least := m;
      } else {
        forall j | j in others && j != m ensures Less(k, j) { LessTransitive(k, m, j); }
      }
    }
  }

  lemma {:induction false} InOrder(keys: set<string>) returns (listed: seq<string>)
    ensures Sorted(listed) && forall k :: k in listed <==> k in keys
    decreases |keys|
  {
    listed := [];
    if keys != {} {
      var least := LeastKey(keys);
      var rest := InOrder(keys - {least});
      listed := [least] + rest;
      forall i, j | 0 <= i < j < |listed| ensures Less(listed[i], listed[j]) {
        if i == 0 { assert rest[j - 1] in rest; }
      }
    }
  }
}
