/** What the operations on 32-bit words compute: rotations bit by bit, and words as big-endian numbers. */
module Sm3Words {
  import opened Bytes
  import opened Radix
  import opened Sm3

  function Number(x: bv32): (n: nat) {
    x as int
  }

  function AsWord(n: nat): bv32
    requires n < 256
  {
    n as bv32
  }

  predicate AtMost(x: bv32, m: bv32) {
    x <= m
  }

  // ---------- A small number as a word ----------

  /** The word y with one more bit, or one more byte, at its lower end. */
  function WithBit(y: bv32, c: bv32): bv32 {
    (y << 1) | (c & 1)
  }

  function WithByte(y: bv32, c: bv32): bv32 {
    (y << 8) | (c & 0xFF)
  }

  lemma BitAdded(y: bv32, c: bv32, m: bv32)
    requires AtMost(y, m) && m <= 0x7F && c <= 1
    ensures Number(WithBit(y, c)) == 2 * Number(y) + Number(c) && AtMost(WithBit(y, c), (m << 1) | 1)
  {
    assert y & 0x7FFFFFFF == y && c & 1 == c;
    assert ((y << 1) | (c & 1)) as int == 2 * ((y & 0x7FFFFFFF) as int) + (c & 1) as int;
  }

  lemma ByteAdded(y: bv32, c: bv32)
    requires AtMost(y, 0xFFFFFF) && AtMost(c, 0xFF)
    ensures Number(WithByte(y, c)) == 256 * Number(y) + Number(c)
  {
    assert y & 0xFFFFFF == y && c & 0xFF == c;
    assert ((y << 8) | (c & 0xFF)) as int == 256 * ((y & 0xFFFFFF) as int) + (c & 0xFF) as int;
  }

  lemma Doubled(y: bv32, m: bv32, b: nat) returns (z: bv32)
    requires AtMost(y, m) && m <= 0x7F && Number(y) == b / 2
    ensures Number(z) == b && AtMost(z, (m << 1) | 1)
  {
    var c: bv32 := if b % 2 == 1 then 1 else 0;
    assert Number(0) == 0 && Number(1) == 1;
    BitAdded(y, c, m);
    z := WithBit(y, c);
    hide Number, AtMost, WithBit;
  }

  lemma WordFor(b: nat) returns (v: bv32)
    requires b < 256
    ensures Number(v) == b && AtMost(v, 0xFF)
  {
    v := 0;
    assert Number(v) == 0 && AtMost(v, 0);
    hide Number, AtMost;
    v := Doubled(v, 0, b / 128);
    v := Doubled(v, 1, b / 64);
    v := Doubled(v, 3, b / 32);
    v := Doubled(v, 7, b / 16);
    v := Doubled(v, 0xF, b / 8);
    v := Doubled(v, 0x1F, b / 4);
    v := Doubled(v, 0x3F, b / 2);
    v := Doubled(v, 0x7F, b);
  }

  lemma IsTheWord(v: bv32, b: nat)
    requires Number(v) == b && b < 256
    ensures AsWord(b) == v
  {
  }

  lemma NumberOf(b: nat)
    requires b < 256
    ensures Number(AsWord(b)) == b && AtMost(AsWord(b), 0xFF)
  {
    var v := WordFor(b);
    IsTheWord(v, b);
    hide *;
  }

  // ---------- Rotation ----------

  /** The amount of a shift, as a bit vector. */
  function Amount(n: nat): bv6
    requires n < 64
  {
    n as bv6
  }

  function Size(k: bv6): (n: nat) {
    k as int
  }

  predicate Below(k: bv6, m: bv6) {
    k <= m
  }

  function LongerBy(y: bv6, c: bv6): bv6 {
    (y << 1) | (c & 1)
  }

  lemma SizeAdded(y: bv6, c: bv6, m: bv6)
    requires Below(y, m) && m <= 0xF && c <= 1
    ensures Size(LongerBy(y, c)) == 2 * Size(y) + Size(c) && Below(LongerBy(y, c), (m << 1) | 1)
  {
    assert y & 0x1F == y && c & 1 == c;
    assert ((y << 1) | (c & 1)) as int == 2 * ((y & 0x1F) as int) + (c & 1) as int;
  }

  lemma OneLonger(y: bv6, m: bv6, b: nat) returns (z: bv6)
    requires Below(y, m) && m <= 0xF && Size(y) == b / 2
    ensures Size(z) == b && Below(z, (m << 1) | 1)
  {
    var c: bv6 := if b % 2 == 1 then 1 else 0;
    assert Size(0) == 0 && Size(1) == 1;
    SizeAdded(y, c, m);
    z := LongerBy(y, c);
    hide Size, Below, LongerBy;
  }

  lemma AmountFor(n: nat) returns (k: bv6)
    requires n < 32
    ensures Size(k) == n && Below(k, 0x1F)
  {
    k := 0;
    assert Size(k) == 0 && Below(k, 0);
    hide Size, Below;
    k := OneLonger(k, 0, n / 16);
    k := OneLonger(k, 1, n / 8);
    k := OneLonger(k, 3, n / 4);
    k := OneLonger(k, 7, n / 2);
    k := OneLonger(k, 0xF, n);
  }

  lemma IsTheAmount(k: bv6, n: nat)
    requires Size(k) == n && n < 64
    ensures Amount(n) == n as bv6 == k
  {
  }

  lemma Complement(k: bv6, n: nat)
    requires Size(k) == n && 0 < n < 32
    ensures 0 < k < 32 && Size(32 - k) == 32 - n
  {
  }

  /** The shifts of a rotation, and the rotation, with the amount as a bit vector. */
  function LeftBy(x: bv32, k: bv6): bv32
    requires k <= 32
  {
    x << k
  }

  function RightBy(x: bv32, k: bv6): bv32
    requires k <= 32
  {
    x >> k
  }

  function Turned(x: bv32, k: bv6): bv32
    requires 0 < k < 32
  {
    OrWords(LeftBy(x, k), RightBy(x, 32 - k))
  }

  /** The bit of a word worth two to the power of i. */
  predicate Bit(x: bv32, i: bv6)
    requires i < 32
  {
    (x >> i) & 1 == 1
  }

  /** The place k before i, counted around the word. */
  function Around(i: bv6, k: bv6): (from: bv6)
    ensures from < 32
  {
    (i - k) & 31
  }

  lemma BitTurned(x: bv32, k: bv6, i: bv6)
    requires 0 < k < 32 && i < 32
    ensures (((x << k) | (x >> (32 - k))) >> i) & 1 == (x >> ((i - k) & 31)) & 1
  {
  }

  lemma TurnedIs(x: bv32, k: bv6)
    requires 0 < k < 32
    ensures Turned(x, k) == (x << k) | (x >> (32 - k))
  {
  }

  lemma BitOfTurned(x: bv32, k: bv6, i: bv6)
    requires 0 < k < 32 && i < 32
    ensures Bit(Turned(x, k), i) <==> Bit(x, Around(i, k))
  {
    BitTurned(x, k, i);
    TurnedIs(x, k);
    BitIs((x << k) | (x >> (32 - k)), i);
    BitIs(x, Around(i, k));
    hide Bit, Turned;
  }

  lemma BitIs(x: bv32, i: bv6)
    requires i < 32
    ensures Bit(x, i) <==> (x >> i) & 1 == 1
  {
  }

  lemma LeftIs(x: bv32, n: nat)
    requires n < 32 && n as bv6 <= 32
    ensures ShiftLeft(x, n) == LeftBy(x, n as bv6)
  {
  }

  lemma RightIs(x: bv32, n: nat)
    requires n < 32 && n as bv6 <= 32
    ensures ShiftRight(x, n) == RightBy(x, n as bv6)
  {
  }

  lemma RotlBy(x: bv32, n: nat, k: bv6)
    requires 0 < k < 32 && Size(k) == n % 32 != 0
    ensures Rotl(x, n) == Turned(x, k)
  {
    var m := n % 32;
    Complement(k, m);
    IsTheAmount(k, m);
    IsTheAmount(32 - k, 32 - m);
    hide Size, Below, Amount, ShiftLeft, ShiftRight, LeftBy, RightBy, OrWords;
    LeftIs(x, m);
    RightIs(x, 32 - m);
  }

  lemma RotlIs(x: bv32, n: nat)
    requires n % 32 != 0
    ensures var k := Amount(n % 32); 0 < k < 32 && Rotl(x, n) == Turned(x, k)
  {
    var k := AmountFor(n % 32);
    Complement(k, n % 32);
    IsTheAmount(k, n % 32);
    hide Size, Below, Amount, Rotl, Turned;
    RotlBy(x, n, k);
  }

  lemma NoRotation(x: bv32, n: nat)
    requires n % 32 == 0
    ensures Rotl(x, n) == x
  {
    hide ShiftLeft, ShiftRight, OrWords;
  }

  lemma NoTurn(i: bv6)
    requires i < 32
    ensures Around(i, Amount(0)) == i
  {
  }

  /** A rotation by n puts the bit i - n, counted around the word, in the place of bit i. */
  lemma RotlBits(x: bv32, n: nat, i: bv6)
    requires i < 32
    ensures Bit(Rotl(x, n), i) <==> Bit(x, Around(i, Amount(n % 32)))
  {
    hide *;
    if n % 32 == 0 {
      NoRotation(x, n);
      NoTurn(i);
    } else {
      RotlIs(x, n);
      BitOfTurned(x, Amount(n % 32), i);
    }
  }

  // ---------- Words as numbers ----------

  lemma FourDigits(a: nat, b: nat, c: nat, d: nat)
    ensures Value(256, [a, b, c, d]) == ((a * 256 + b) * 256 + c) * 256 + d
  {
    ValueSnoc(256, [], a);
    ValueSnoc(256, [a], b);
    ValueSnoc(256, [a, b], c);
    ValueSnoc(256, [a, b, c], d);
    assert [] + [a] == [a] && [a] + [b] == [a, b] && [a, b] + [c] == [a, b, c] && [a, b, c] + [d] == [a, b, c, d];
  }

  function Joined(a: bv32, b: bv32, c: bv32, d: bv32): bv32 {
    (a << 24) | (b << 16) | (c << 8) | d
  }

  lemma JoinedIs(a: bv32, b: bv32, c: bv32, d: bv32)
    requires AtMost(a, 0xFF) && AtMost(b, 0xFF) && AtMost(c, 0xFF) && AtMost(d, 0xFF)
    ensures Joined(a, b, c, d) == WithByte(WithByte(WithByte(a, b), c), d)
    ensures AtMost(a, 0xFFFFFF) && AtMost(WithByte(a, b), 0xFFFFFF) && AtMost(WithByte(WithByte(a, b), c), 0xFFFFFF)
  {
  }

  lemma JoinedNumber(a: bv32, b: bv32, c: bv32, d: bv32)
    requires AtMost(a, 0xFF) && AtMost(b, 0xFF) && AtMost(c, 0xFF) && AtMost(d, 0xFF)
    ensures Number(Joined(a, b, c, d)) == Value(256, [Number(a), Number(b), Number(c), Number(d)])
  {
    hide *;
    JoinedIs(a, b, c, d);
    ByteAdded(a, b);
    ByteAdded(WithByte(a, b), c);
    ByteAdded(WithByte(WithByte(a, b), c), d);
    FourDigits(Number(a), Number(b), Number(c), Number(d));
  }

  lemma WordOfIs(a: Byte, b: Byte, c: Byte, d: Byte)
    ensures WordOf(a, b, c, d) == Joined(AsWord(a), AsWord(b), AsWord(c), AsWord(d))
  {
  }

  /** Four bytes make the word of their number, most significant byte first. */
  lemma WordOfValue(a: Byte, b: Byte, c: Byte, d: Byte)
    ensures WordOf(a, b, c, d) as int == Value(256, [a, b, c, d])
  {
    assert WordOf(a, b, c, d) as int == Number(WordOf(a, b, c, d));
    hide WordOf, Number, AsWord, AtMost, Joined, Value;
    WordOfIs(a, b, c, d);
    NumberOf(a);
    NumberOf(b);
    NumberOf(c);
    NumberOf(d);
    JoinedNumber(AsWord(a), AsWord(b), AsWord(c), AsWord(d));
  }

  lemma FourParts(w: bv32)
    ensures var a, b, c, d := (w >> 24) & 0xFF, (w >> 16) & 0xFF, (w >> 8) & 0xFF, w & 0xFF;
      AtMost(a, 0xFF) && AtMost(b, 0xFF) && AtMost(c, 0xFF) && AtMost(d, 0xFF) && Joined(a, b, c, d) == w
  {
  }

  lemma WordBytesAre(w: bv32)
    ensures WordBytes(w)
         == [Number((w >> 24) & 0xFF), Number((w >> 16) & 0xFF), Number((w >> 8) & 0xFF), Number(w & 0xFF)]
  {
  }

  /** And the bytes of a word are the digits of its number. */
  lemma WordBytesValue(w: bv32)
    ensures Value(256, WordBytes(w)) == w as int
  {
    assert w as int == Number(w);
    hide WordBytes, Number, AtMost, Joined, Value;
    FourParts(w);
    WordBytesAre(w);
    JoinedNumber((w >> 24) & 0xFF, (w >> 16) & 0xFF, (w >> 8) & 0xFF, w & 0xFF);
  }
}
