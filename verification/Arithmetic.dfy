/** Division with remainder by a number that need not be a literal. */
module Arithmetic {
  const MAX_UINT32: nat := 0x1_0000_0000

  lemma Division(m: nat, x: nat)
    requires m > 0
    ensures x == x / m * m + x % m && x % m < m
  {
  }

  lemma Multiples(m: int, k: int)
    requires m >= 0
    ensures k >= 1 ==> m * k >= m
    ensures k <= -1 ==> m * k <= -m
  {
  }

  /** The only multiple of m between -m and m is zero. */
  lemma Closest(m: int, k: int, r: int)
    requires m * k == r && -m < r < m
    ensures k == 0 && r == 0
  {
    Multiples(m, k);
  }

  /** Quotient and remainder of a number that is given by them. */
  lemma DivMod(q: nat, m: nat, r: nat)
    requires r < m
    ensures (q * m + r) / m == q && (q * m + r) % m == r
  {
    var x := q * m + r;
    assert x == m * (x / m) + x % m;
    Closest(m, x / m - q, r - x % m);
  }
}
