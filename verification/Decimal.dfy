/** Unsigned decimal numbers as text: a lenient reader that wraps around, and the exact one built on it. */
module Decimal {
  import opened Arithmetic

  const MAX_UINT64: nat := 0x1_0000_0000_0000_0000

  predicate IsDigit(c: char) {
    '0' <= c <= '9'
  }

  /** White space; a character the machine takes for a negative number is none. */
  predicate IsSpace(c: char) {
    c == ' ' || 9 <= c as int <= 13
  }

  function DigitValue(c: char): (d: nat)
    ensures IsDigit(c) ==> d < 10
  {
    if IsDigit(c) then c as int - '0' as int else 0
  }

  predicate AllDigits(s: string) {
    forall i :: 0 <= i < |s| ==> IsDigit(s[i])
  }

  /** The number some digits stand for. */
  function ValueOf(s: string): nat {
    if s == [] then 0 else 10 * ValueOf(s[..|s| - 1]) + DigitValue(s[|s| - 1])
  }

  /** How printf writes an unsigned number. */
  function ToString(n: nat): (s: string)
    ensures s != []
  {
    (if n < 10 then [] else ToString(n / 10)) + [(n % 10 + '0' as int) as char]
  }

  /** A text begins with some white space and then some digits, and no more of them. */
  ghost predicate Number(s: string, spaces: string, digits: string) {
    var end := |spaces| + |digits|;
    && end <= |s| && s[..end] == spaces + digits
    && (forall i :: 0 <= i < |spaces| ==> IsSpace(spaces[i])) && AllDigits(digits)
    && (end < |s| ==> !IsDigit(s[end]) && (digits == [] ==> !IsSpace(s[end])))
  }

  // ---------- The lenient reader ----------

  method AppendWrapped(value: nat, ghost digits: string, c: char, modulus: nat) returns (longer: nat)
    requires modulus > 0 && value == ValueOf(digits) % modulus
    ensures longer == ValueOf(digits + [c]) % modulus
  {
    longer := value * 10 % modulus;
    longer := (longer + DigitValue(c)) % modulus;
    DigitStep(digits, c, modulus);
  }

  /** Skip white space, read digits, stop at anything else; the result wraps around at the width of the type. */
  method ReadWrapped(s: string, modulus: nat) returns (value: nat, ghost spaces: string, ghost digits: string)
    requires modulus > 0
    ensures Number(s, spaces, digits) && value == ValueOf(digits) % modulus
  {
    value, spaces, digits := 0, [], [];
    var used := 0;
    var i := 0;
    while i < |s|
      invariant 0 <= i <= |s| && i == |spaces| + |digits| && used == |digits|
      invariant s[..i] == spaces + digits
      invariant (forall k :: 0 <= k < |spaces| ==> IsSpace(spaces[k])) && AllDigits(digits)
      invariant value == ValueOf(digits) % modulus
    {
      if IsDigit(s[i]) {
        value := AppendWrapped(value, digits, s[i], modulus);
        assert s[..i + 1] == spaces + (digits + [s[i]]);
        digits := digits + [s[i]];
        used := used + 1;
      } else if !IsSpace(s[i]) || used > 0 {
        break;
      } else {
        assert s[..i + 1] == (spaces + [s[i]]) + digits;
        spaces := spaces + [s[i]];
      }
      i := i + 1;
    }
  }

  lemma DigitStep(digits: string, c: char, m: nat)
    requires m > 0
    ensures (ValueOf(digits) % m * 10 % m + DigitValue(c)) % m == ValueOf(digits + [c]) % m
  {
    assert (digits + [c])[..|digits + [c]| - 1] == digits;
    WrapStep(ValueOf(digits), DigitValue(c), m);
  }

  /** Adding a multiple does not change the remainder. */
  lemma SameRemainder(x: nat, y: nat, k: nat, m: nat)
    requires m > 0 && x == y + k * m
    ensures x % m == y % m
  {
    Division(m, y);
    DivMod(y / m + k, m, y % m);
    DivMod(y / m, m, y % m);
    assert (y / m + k) * m == y / m * m + k * m;
  }

  lemma WrapStep(v: nat, d: nat, m: nat)
    requires m > 0
    ensures (v % m * 10 % m + d) % m == (10 * v + d) % m
  {
    var r, q := v % m, v / m;
    Division(m, v);
    WrapSum(r * 10, d, m);
    TenTimes(v, q, m, r);
    SameRemainder(10 * v + d, r * 10 + d, 10 * q, m);
  }

  lemma WrapSum(x: nat, d: nat, m: nat)
    requires m > 0
    ensures (x % m + d) % m == (x + d) % m
  {
    var r, q := x % m, x / m;
    Division(m, x);
    SameRemainder(x + d, r + d, q, m);
  }

  lemma TenTimes(v: nat, q: nat, m: nat, r: nat)
    requires v == q * m + r
    ensures 10 * v == r * 10 + 10 * q * m
  {
  }

  // ---------- The exact reader ----------

  /** Accept a text of limited length only if printing what was read gives it back. */
  method SafeRead(s: string, modulus: nat, longest: nat) returns (ok: bool, num: nat)
    requires modulus > 0
    ensures ok <==> |s| <= longest && exists n: nat :: n < modulus && s == ToString(n)
    ensures ok ==> num < modulus && s == ToString(num)
  {
    if |s| > longest { return false, 0; }
    ghost var spaces, digits;
    num, spaces, digits := ReadWrapped(s, modulus);
    Division(modulus, ValueOf(digits));
    ok := s == ToString(num);
    if exists n: nat :: n < modulus && s == ToString(n) {
      var n: nat :| n < modulus && s == ToString(n);
      ReadsBack(n);
      WholeNumber(s, spaces, digits);
      DivMod(0, modulus, n);
    }
  }

  lemma {:induction false} ReadsBack(n: nat)
    ensures AllDigits(ToString(n)) && ValueOf(ToString(n)) == n
  {
    var c := (n % 10 + '0' as int) as char;
    var head := if n < 10 then [] else ToString(n / 10);
    if n >= 10 { ReadsBack(n / 10); }
    assert ToString(n)[..|ToString(n)| - 1] == head;
  }

  /** A text of digits is read to its end. */
  lemma WholeNumber(s: string, spaces: string, digits: string)
    requires Number(s, spaces, digits) && AllDigits(s)
    ensures digits == s
  {
    FirstIsSpace(s, spaces, digits);
    assert s[..|digits|] == digits;
  }

  lemma FirstIsSpace(s: string, spaces: string, digits: string)
    requires Number(s, spaces, digits)
    ensures spaces != [] ==> s != [] && IsSpace(s[0])
  {
    if spaces != [] { assert s[..|spaces| + |digits|][0] == spaces[0]; }
  }

  /** Different numbers are written differently. */
  lemma ToStringInjective(m: nat, n: nat)
    requires ToString(m) == ToString(n)
    ensures m == n
  {
    ReadsBack(m);
    ReadsBack(n);
  }

  // ---------- No number of the type is too long ----------

  lemma {:induction false} LengthOf(n: nat, k: nat)
    requires k > 0 && n < Ten(k)
    ensures |ToString(n)| <= k
  {
    if n >= 10 { LengthOf(n / 10, k - 1); }
  }

  function Ten(k: nat): nat {
    if k == 0 then 1 else 10 * Ten(k - 1)
  }

  lemma TenTwenty()
    ensures Ten(10) == 10_000_000_000 && Ten(20) == 100_000_000_000_000_000_000
  {
    assert Ten(5) == 100_000 && Ten(10) == 10_000_000_000;
    assert Ten(15) == 1_000_000_000_000_000;
  }

  /**
    The 64-bit reader accepts exactly the decimal numbers below 2^64, each as itself, although it wraps around
    inside.
  */
  method SafeStoui64(s: string) returns (ok: bool, num: nat)
    ensures ok <==> exists n: nat :: n < MAX_UINT64 && s == ToString(n)
    ensures ok ==> num < MAX_UINT64 && s == ToString(num) && forall n: nat :: s == ToString(n) ==> n == num
  {
    ok, num := SafeRead(s, MAX_UINT64, 20);
    TenTwenty();
    forall n: nat | n < MAX_UINT64 && s == ToString(n) ensures |s| <= 20 { LengthOf(n, 20); }
    forall n: nat | ok && s == ToString(n) ensures n == num { ToStringInjective(n, num); }
  }

  /** The same for 32 bits. */
  method SafeStoui(s: string) returns (ok: bool, num: nat)
    ensures ok <==> exists n: nat :: n < MAX_UINT32 && s == ToString(n)
    ensures ok ==> num < MAX_UINT32 && s == ToString(num) && forall n: nat :: s == ToString(n) ==> n == num
  {
    ok, num := SafeRead(s, MAX_UINT32, 10);
    TenTwenty();
    forall n: nat | n < MAX_UINT32 && s == ToString(n) ensures |s| <= 10 { LengthOf(n, 10); }
    forall n: nat | ok && s == ToString(n) ensures n == num { ToStringInjective(n, num); }
  }

  /** The digits are the usual ones, the last one counts once, and the widths are 32 and 64 bits. */
  lemma Examples()
    ensures ToString(0) == "0" && ToString(102) == "102" && ValueOf("102") == 102
    ensures MAX_UINT32 == 4294967296 && MAX_UINT64 == 18446744073709551616
  {
    Printed();
    assert "102"[..2] == "10" && "10"[..1] == "1" && "1"[..0] == "";
    assert ValueOf("1") == 1 && ValueOf("10") == 10;
  }

  lemma Printed()
    ensures ToString(0) == "0" && ToString(102) == "102"
  {
    assert ToString(1) == "1" && ToString(10) == "10";
  }
}
