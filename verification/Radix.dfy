/** Numbers written in a base, most significant digit first. */
module Radix {
  import opened Arithmetic

  function Pow(base: nat, n: nat): nat {
    if n == 0 then 1 else base * Pow(base, n - 1)
  }

  predicate DigitsBelow(base: nat, s: seq<nat>) {
    forall i :: 0 <= i < |s| ==> s[i] < base
  }

  function Value(base: nat, s: seq<nat>): nat {
    if s == [] then 0 else Value(base, s[..|s| - 1]) * base + s[|s| - 1]
  }

  /** The digits of a number without leading zeros; none for zero. */
  function Digits(base: nat, v: nat): (s: seq<nat>)
    requires base >= 2
  {
    if v == 0 then [] else Digits(base, v / base) + [v % base]
  }

  function LeadingZeros(s: seq<nat>): (n: nat)
    ensures n <= |s|
  {
    if s != [] && s[0] == 0 then 1 + LeadingZeros(s[1..]) else 0
  }

  function Zeros(n: nat): (s: seq<nat>)
    ensures |s| == n && forall i :: 0 <= i < n ==> s[i] == 0
  {
    seq(n, i => 0)
  }

  // ---------- Powers ----------

  lemma {:induction false} PowAdd(base: nat, m: nat, n: nat)
    ensures Pow(base, m + n) == Pow(base, m) * Pow(base, n)
    decreases m
  {
    if m > 0 {
      PowAdd(base, m - 1, n);
      calc {
        Pow(base, m + n);
        base * Pow(base, m - 1 + n);
        base * (Pow(base, m - 1) * Pow(base, n));
        (base * Pow(base, m - 1)) * Pow(base, n);
      }
    }
  }

  lemma {:induction false} PowPositive(base: nat, n: nat)
    requires base >= 1
    ensures Pow(base, n) >= 1
  {
    if n > 0 { PowPositive(base, n - 1); }
  }

  lemma {:induction false} PowMonotone(base: nat, m: nat, n: nat)
    requires base >= 1 && m <= n
    ensures Pow(base, m) <= Pow(base, n)
  {
    if m < n {
      PowMonotone(base, m, n - 1);
      assert Pow(base, n) == base * Pow(base, n - 1) >= Pow(base, n - 1);
    }
  }

  // ---------- Values ----------

  /** A number has at most as many digits as its value needs. */
  lemma {:induction false} ValueBound(base: nat, s: seq<nat>)
    requires base >= 1 && DigitsBelow(base, s)
    ensures Value(base, s) < Pow(base, |s|)
  {
    if s != [] {
      var n := |s| - 1;
      ValueBound(base, s[..n]);
      NextBelow(Value(base, s[..n]), Pow(base, n), base, s[n]);
    }
  }

  lemma NextBelow(v: nat, p: nat, base: nat, d: nat)
    requires v < p && d < base
    ensures v * base + d < base * p
  {
    var k: nat := p - 1 - v;
    assert p == v + 1 + k;
    assert base * p == base * (v + 1) + base * k;
  }

  lemma {:induction false} ValueAppend(base: nat, s: seq<nat>, t: seq<nat>)
    ensures Value(base, s + t) == Value(base, s) * Pow(base, |t|) + Value(base, t)
    decreases |t|
  {
    if t == [] {
      assert s + t == s;
    } else {
      var n := |t| - 1;
      assert (s + t)[..|s + t| - 1] == s + t[..n] && (s + t)[|s + t| - 1] == t[n];
      ValueAppend(base, s, t[..n]);
      Distribute(Value(base, s), Pow(base, n), base, Value(base, t[..n]));
    }
  }

  lemma Distribute(a: nat, p: nat, base: nat, v: nat)
    ensures (a * p + v) * base == a * (base * p) + v * base
  {
  }

  lemma {:induction false} ValueOfZeros(base: nat, n: nat)
    ensures Value(base, Zeros(n)) == 0
  {
    if n > 0 {
      assert Zeros(n)[..n - 1] == Zeros(n - 1);
      ValueOfZeros(base, n - 1);
    }
  }

  lemma ValueLeadingZeros(base: nat, n: nat, s: seq<nat>)
    ensures Value(base, Zeros(n) + s) == Value(base, s)
  {
    ValueAppend(base, Zeros(n), s);
    ValueOfZeros(base, n);
  }

  lemma {:induction false} SplitLeading(s: seq<nat>)
    ensures var z := LeadingZeros(s); s == Zeros(z) + s[z..] && (z < |s| ==> s[z] != 0)
  {
    if s != [] && s[0] == 0 {
      SplitLeading(s[1..]);
      var z := LeadingZeros(s[1..]);
      assert s == [0] + s[1..] && Zeros(z + 1) == [0] + Zeros(z) && s[1..][z..] == s[z + 1..];
    } else {
      assert s == Zeros(0) + s[0..];
    }
  }

  lemma {:induction false} LeadingOf(n: nat, s: seq<nat>)
    requires s != [] ==> s[0] != 0
    ensures LeadingZeros(Zeros(n) + s) == n
  {
    if n == 0 {
      assert Zeros(0) + s == s;
    } else {
      assert (Zeros(n) + s)[1..] == Zeros(n - 1) + s;
      LeadingOf(n - 1, s);
    }
  }

  /** A number that is not zero has a digit that is not zero. */
  lemma {:induction false} ValuePositive(base: nat, s: seq<nat>)
    requires base >= 1 && s != [] && s[0] != 0
    ensures Value(base, s) > 0
  {
    if |s| > 1 {
      ValuePositive(base, s[..|s| - 1]);
      assert Value(base, s[..|s| - 1]) * base >= 1;
    }
  }

  lemma {:induction false} ValueOfDigits(base: nat, v: nat)
    requires base >= 2
    ensures Value(base, Digits(base, v)) == v && DigitsBelow(base, Digits(base, v))
    ensures v > 0 ==> Digits(base, v) != [] && Digits(base, v)[0] != 0
  {
    if v > 0 {
      LastDigit(base, v);
      ValueOfDigits(base, v / base);
      MoreDigits(base, v, v / base, v % base, Digits(base, v / base));
    }
  }

  lemma MoreDigits(base: nat, v: nat, q: nat, r: nat, s: seq<nat>)
    requires v > 0 && v == q * base + r && r < base && (q == 0 ==> r == v)
    requires Value(base, s) == q && DigitsBelow(base, s) && (q > 0 ==> s != [] && s[0] != 0) && (q == 0 ==> s == [])
    ensures Value(base, s + [r]) == v && DigitsBelow(base, s + [r]) && (s + [r])[0] != 0
  {
    ValueSnoc(base, s, r);
  }

  lemma ValueSnoc(base: nat, s: seq<nat>, d: nat)
    ensures Value(base, s + [d]) == Value(base, s) * base + d
  {
    assert (s + [d])[..|s + [d]| - 1] == s;
  }

  lemma QuotientSmaller(base: nat, v: nat, q: nat, r: nat)
    requires base >= 2 && v == q * base + r
    ensures q == 0 ==> r == v
    ensures v > 0 ==> q < v
  {
    assert q * base == q * 2 + q * (base - 2);
  }

  lemma LastDigit(base: nat, v: nat)
    requires base >= 2
    ensures v == v / base * base + v % base && v % base < base
    ensures v / base == 0 ==> v % base == v
    ensures v > 0 ==> v / base < v
  {
    Division(base, v);
    QuotientSmaller(base, v, v / base, v % base);
  }

  /** Digits and value are inverse: a digit string without leading zeros is the one its value has. */
  lemma {:induction false} DigitsOfValue(base: nat, s: seq<nat>)
    requires base >= 2 && DigitsBelow(base, s) && (s != [] ==> s[0] != 0)
    ensures Digits(base, Value(base, s)) == s
  {
    if s != [] {
      var n := |s| - 1;
      DigitsOfValue(base, s[..n]);
      ValuePositive(base, s);
      DivMod(Value(base, s[..n]), base, s[n]);
      assert s == s[..n] + [s[n]];
    }
  }

  lemma StripValue(base: nat, s: seq<nat>)
    requires base >= 2 && DigitsBelow(base, s)
    ensures Digits(base, Value(base, s)) == s[LeadingZeros(s)..]
  {
    SplitLeading(s);
    var z := LeadingZeros(s);
    ValueLeadingZeros(base, z, s[z..]);
    DigitsOfValue(base, s[z..]);
  }

  // ---------- Multiply and add in place ----------

  lemma StepValue(base: nat, factor: nat, carry: nat, d: nat, q: nat, r: nat, p: nat, oldTail: nat, tail: nat,
                  start: nat)
    requires carry * p + tail == factor * oldTail + start && carry + factor * d == q * base + r
    ensures q * (base * p) + (r * p + tail) == factor * (d * p + oldTail) + start
  {
    calc {
      q * (base * p) + (r * p + tail);
      (q * base + r) * p + tail;
      (carry + factor * d) * p + tail;
      carry * p + factor * d * p + tail;
      factor * oldTail + start + factor * (d * p);
      factor * (d * p + oldTail) + start;
    }
  }

  lemma ValueCons(base: nat, d: nat, s: seq<nat>)
    ensures Value(base, [d] + s) == d * Pow(base, |s|) + Value(base, s)
  {
    ValueAppend(base, [d], s);
    assert [d][..0] == [];
  }

  /** What is kept from one digit to the next: the digits done and the carry make up the product so far. */
  ghost predicate Passed(base: nat, factor: nat, start: nat, was: seq<nat>, tail: seq<nat>, carry: nat) {
    |was| == |tail| && carry * Pow(base, |tail|) + Value(base, tail) == factor * Value(base, was) + start
  }

  lemma PassDigit(base: nat, factor: nat, start: nat, was: seq<nat>, tail: seq<nat>, carry: nat, d: nat, q: nat, r: nat)
    requires Passed(base, factor, start, was, tail, carry) && carry + factor * d == q * base + r
    ensures Passed(base, factor, start, [d] + was, [r] + tail, q)
  {
    ValueCons(base, d, was);
    ValueCons(base, r, tail);
    StepValue(base, factor, carry, d, q, r, Pow(base, |tail|), Value(base, was), Value(base, tail), start);
  }

  /**
    One pass of long arithmetic from the last digit to the first.  The number in the buffer becomes
    `factor` times what it was plus `start`, up to the carry that is left over; the carry never
    leaves one byte, so no intermediate value leaves a machine integer.
  */
  method MultiplyAdd(a: array<nat>, base: nat, factor: nat, start: nat) returns (carry: nat)
    requires 2 <= base <= 256 && factor <= 256 && start < 256 && DigitsBelow(base, a[..])
    modifies a
    ensures DigitsBelow(base, a[..]) && carry < 256
    ensures carry * Pow(base, a.Length) + Value(base, a[..]) == factor * Value(base, old(a[..])) + start
  {
    carry := start;
    ghost var was := a[..];
    var j := a.Length;
    assert a[j..] == [] && was[j..] == [];
    while j > 0
      invariant 0 <= j <= a.Length && carry < 256
      invariant forall i :: 0 <= i < a.Length ==> a[i] < base
      invariant forall i :: 0 <= i < j ==> a[i] == was[i]
      invariant Passed(base, factor, start, was[j..], a[j..], carry)
    {
      j := j - 1;
      carry := PassOne(a, j, base, factor, carry, start, was);
    }
    assert a[0..] == a[..] && was[0..] == was;
  }

  method PassOne(a: array<nat>, j: nat, base: nat, factor: nat, carryIn: nat, ghost start: nat, ghost was: seq<nat>)
      returns (carry: nat)
    requires 2 <= base <= 256 && factor <= 256 && carryIn < 256 && j < a.Length == |was|
    requires a[j] == was[j] && a[j] < base
    requires Passed(base, factor, start, was[j + 1..], a[j + 1..], carryIn)
    modifies a
    ensures carry < 256 && a[j] < base && forall i :: 0 <= i < a.Length && i != j ==> a[i] == old(a[i])
    ensures Passed(base, factor, start, was[j..], a[j..], carry)
  {
    ghost var tail := a[j + 1..];
    var digit;
    carry, digit := DivideOff(carryIn, a[j], base, factor, start, was[j + 1..], tail);
    a[j] := digit;
    assert a[j..] == [digit] + tail && was[j..] == [was[j]] + was[j + 1..];
  }

  method QuotientAndRest(t: nat, base: nat) returns (quotient: nat, rest: nat)
    requires base >= 2
    ensures t == quotient * base + rest && rest < base
  {
    quotient, rest := t / base, t % base;
    LastDigit(base, t);
  }

  /** One digit of the product, and what is carried on. */
  method DivideOff(carryIn: nat, d: nat, base: nat, factor: nat, ghost start: nat, ghost was: seq<nat>,
                   ghost tail: seq<nat>)
    returns (carry: nat, digit: nat)
    requires 2 <= base <= 256 && factor <= 256 && carryIn < 256 && d < base
    requires Passed(base, factor, start, was, tail, carryIn)
    ensures carry < 256 && digit < base && Passed(base, factor, start, [d] + was, [digit] + tail, carry)
  {
    carry, digit := QuotientAndRest(carryIn + factor * d, base);
    StepBound(base, factor, carryIn, d, carry, digit);
    PassDigit(base, factor, start, was, tail, carryIn, d, carry, digit);
  }

  lemma StepBound(base: nat, factor: nat, carry: nat, d: nat, q: nat, r: nat)
    requires 2 <= base && factor <= 256 && carry < 256 && d < base && carry + factor * d == q * base + r
    ensures q < 256
  {
    assert factor * d <= 256 * d;
    assert q * base < 256 * base;
    Multiples(base, q - 256);
    assert q * base - 256 * base == base * (q - 256);
  }

  lemma MultipleAtLeast(k: nat, p: nat)
    ensures k > 0 ==> k * p >= p
  {
  }

  /** A carry can only be left over when the number does not fit the buffer. */
  lemma NoCarry(carry: nat, p: nat, v: nat, total: nat)
    requires carry * p + v == total && total < p
    ensures carry == 0 && v == total
  {
    MultipleAtLeast(carry, p);
  }
}
