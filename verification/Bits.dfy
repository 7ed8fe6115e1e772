/** Numbers and byte strings as bits, most significant first. */
module Bits {
  import opened Arithmetic
  import opened Bytes

  function Pow2(n: nat): (p: nat)
    ensures p > 0
  {
    if n == 0 then 1 else 2 * Pow2(n - 1)
  }

  function Num(bits: seq<bool>): nat {
    if bits == [] then 0 else 2 * Num(bits[..|bits| - 1]) + if bits[|bits| - 1] then 1 else 0
  }

  /** The bits from one position up to another. */
  function Slice(s: seq<bool>, from: nat, to: nat): (r: seq<bool>)
    requires from <= to <= |s|
    ensures |r| == to - from
  {
    seq(to - from, i requires 0 <= i < to - from => s[from + i])
  }

  lemma SliceOfSlice(s: seq<bool>, a: nat, b: nat, c: nat, d: nat)
    requires a <= b <= |s| && c <= d <= b - a
    ensures Slice(Slice(s, a, b), c, d) == Slice(s, a + c, a + d)
  {
  }

  lemma SliceJoin(s: seq<bool>, a: nat, b: nat, c: nat)
    requires a <= b <= c <= |s|
    ensures Slice(s, a, b) + Slice(s, b, c) == Slice(s, a, c)
  {
  }

  lemma SliceOfSum(a: seq<bool>, b: seq<bool>)
    ensures Slice(a + b, 0, |a|) == a && Slice(a + b, |a|, |a + b|) == b
  {
  }

  /** The w low-order bits of a number. */
  function BitsOf(n: nat, w: nat): (s: seq<bool>)
    ensures |s| == w
  {
    if w == 0 then [] else BitsOf(n / 2, w - 1) + [n % 2 == 1]
  }

  function ByteWidth(): (w: nat)
    ensures w == 8
  {
    8
  }

  /** The eight bits of a byte. */
  function OneByte(b: Byte): (s: seq<bool>)
    ensures |s| == 8
  {
    BitsOf(b, ByteWidth())
  }

  function ByteBits(x: seq<Byte>): (s: seq<bool>)
    ensures |s| == 8 * |x|
  {
    if x == [] then [] else ByteBits(x[..|x| - 1]) + OneByte(x[|x| - 1])
  }

  lemma {:induction false} NumBound(bits: seq<bool>)
    ensures Num(bits) < Pow2(|bits|)
  {
    if bits != [] { NumBound(bits[..|bits| - 1]); }
  }

  lemma {:induction false} BitsOfNum(bits: seq<bool>)
    ensures BitsOf(Num(bits), |bits|) == bits
  {
    if bits != [] {
      var n := |bits| - 1;
      BitsOfNum(bits[..n]);
      assert Num(bits) / 2 == Num(bits[..n]);
      assert bits == bits[..n] + [bits[n]];
    }
  }

  lemma {:induction false} NumOfBits(n: nat, w: nat)
    requires n < Pow2(w)
    ensures Num(BitsOf(n, w)) == n
  {
    if w > 0 {
      NumOfBits(n / 2, w - 1);
      assert BitsOf(n, w)[..w - 1] == BitsOf(n / 2, w - 1);
    }
  }

  /** The first bits of a number are those of its upper part. */
  lemma {:induction false} UpperBits(n: nat, w: nat, k: nat)
    requires k <= w
    ensures Slice(BitsOf(n, w), 0, w - k) == BitsOf(ShiftRight(n, k), w - k)
  {
    if k > 0 {
      UpperBits(n / 2, w - 1, k - 1);
      assert Slice(BitsOf(n, w), 0, w - k) == Slice(BitsOf(n / 2, w - 1), 0, w - k);
    }
  }

  /** A number shifted to the right, without its k low-order bits. */
  function ShiftRight(n: nat, k: nat): nat {
    if k == 0 then n else ShiftRight(n / 2, k - 1)
  }

  /** The last bits of a number are its low-order bits. */
  lemma {:induction false} LowerBits(n: nat, w: nat, g: nat)
    requires g <= w
    ensures Slice(BitsOf(n, w), w - g, w) == BitsOf(n, g)
  {
    if g > 0 {
      LowerBits(n / 2, w - 1, g - 1);
      assert Slice(BitsOf(n, w), w - g, w) == Slice(BitsOf(n / 2, w - 1), w - g, w - 1) + [n % 2 == 1];
    }
  }

  /** A window of g bits that starts after `from` bits of a w-bit number. */
  lemma Window(n: nat, w: nat, from: nat, g: nat)
    requires from + g <= w
    ensures Slice(BitsOf(n, w), from, from + g) == BitsOf(ShiftRight(n, w - from - g), g)
  {
    UpperBits(n, w, w - from - g);
    LowerBits(ShiftRight(n, w - from - g), from + g, g);
    SliceOfSlice(BitsOf(n, w), 0, from + g, from, from + g);
  }

  /** The number the low-order bits stand for. */
  lemma {:induction false} NumOfLow(n: nat, w: nat)
    ensures Num(BitsOf(n, w)) == n % Pow2(w)
  {
    if w > 0 {
      NumOfLow(n / 2, w - 1);
      assert BitsOf(n, w)[..w - 1] == BitsOf(n / 2, w - 1);
      LowStep(n, Pow2(w - 1));
    }
  }

  lemma LowStep(n: nat, p: nat)
    requires p > 0
    ensures 2 * (n / 2 % p) + n % 2 == n % (2 * p)
  {
    var q, r := n / 2 / p, n / 2 % p;
    assert n / 2 == q * p + r;
    var low := 2 * r + n % 2;
    assert n == q * (2 * p) + low && low < 2 * p;
    DivMod(q, 2 * p, low);
  }

  /** A number shifted to the left. */
  function ShiftLeft(n: nat, k: nat): nat {
    if k == 0 then n else 2 * ShiftLeft(n, k - 1)
  }

  /** Two numbers side by side are the bits of one. */
  lemma {:induction false} BitsConcat(p: nat, q: nat, w: nat, v: nat)
    requires q < Pow2(v)
    ensures BitsOf(p, w) + BitsOf(q, v) == BitsOf(ShiftLeft(p, v) + q, w + v)
  {
    if v == 0 {
      assert BitsOf(p, w) + [] == BitsOf(p, w);
    } else {
      var n := ShiftLeft(p, v) + q;
      assert n / 2 == ShiftLeft(p, v - 1) + q / 2 && n % 2 == q % 2;
      BitsConcat(p, q / 2, w, v - 1);
      assert BitsOf(p, w) + BitsOf(q, v) == BitsOf(p, w) + BitsOf(q / 2, v - 1) + [q % 2 == 1];
    }
  }

  // ---------- Byte strings ----------

  lemma {:induction false} ByteBitsAppend(x: seq<Byte>, y: seq<Byte>)
    ensures ByteBits(x + y) == ByteBits(x) + ByteBits(y)
    decreases |y|
  {
    if y == [] {
      assert x + y == x;
    } else {
      assert (x + y)[..|x + y| - 1] == x + y[..|y| - 1];
      ByteBitsAppend(x, y[..|y| - 1]);
    }
  }

  lemma ByteBitsSnoc(x: seq<Byte>, b: Byte)
    ensures ByteBits(x + [b]) == ByteBits(x) + OneByte(b)
  {
    assert (x + [b])[..|x + [b]| - 1] == x;
  }

  lemma {:induction false} ByteAt(x: seq<Byte>, i: nat)
    requires i < |x|
    ensures Slice(ByteBits(x), 8 * i, 8 * i + 8) == OneByte(x[i])
  {
    var n := |x| - 1;
    if i == n {
      assert ByteBits(x) == ByteBits(x[..n]) + OneByte(x[n]);
      SliceOfSum(ByteBits(x[..n]), OneByte(x[n]));
    } else {
      ByteAt(x[..n], i);
      assert Slice(ByteBits(x), 8 * i, 8 * i + 8) == Slice(ByteBits(x[..n]), 8 * i, 8 * i + 8);
    }
  }

  /** The byte eight bits stand for. */
  function ByteOf(bits: seq<bool>): Byte
    requires |bits| == 8
  {
    NumBound(bits);
    assert Pow2(8) == 256;
    Num(bits)
  }

  lemma NumOfByte(b: Byte)
    ensures ByteOf(OneByte(b)) == b
  {
    assert Pow2(8) == 256;
    NumOfBits(b, ByteWidth());
  }

  lemma ByteOfBits(bits: seq<bool>)
    requires |bits| == 8
    ensures OneByte(ByteOf(bits)) == bits
  {
    BitsOfNum(bits);
  }

  /** The bytes whole groups of eight bits stand for. */
  function BytesOf(bits: seq<bool>): (x: seq<Byte>)
    requires |bits| % 8 == 0
    ensures |x| == |bits| / 8
  {
    if bits == [] then []
    else BytesOf(bits[..|bits| - 8]) + [ByteOf(Slice(bits, |bits| - 8, |bits|))]
  }

  lemma BytesOfSnoc(bits: seq<bool>, eight: seq<bool>)
    requires |bits| % 8 == 0 && |eight| == 8
    ensures BytesOf(bits + eight) == BytesOf(bits) + [ByteOf(eight)]
  {
    var all := bits + eight;
    assert all[..|all| - 8] == bits;
    SliceOfSum(bits, eight);
  }

  lemma {:induction false} BytesOfBits(x: seq<Byte>)
    ensures BytesOf(ByteBits(x)) == x
  {
    if x != [] {
      var p, b := x[..|x| - 1], x[|x| - 1];
      BytesOfBits(p);
      BytesOfSnoc(ByteBits(p), OneByte(b));
      NumOfByte(b);
      assert x == p + [b];
    }
  }

  lemma {:induction false} BitsOfBytes(bits: seq<bool>)
    requires |bits| % 8 == 0
    ensures ByteBits(BytesOf(bits)) == bits
  {
    if bits != [] {
      var p, e := bits[..|bits| - 8], Slice(bits, |bits| - 8, |bits|);
      assert bits == p + e;
      BitsOfBytes(p);
      BytesOfSnoc(p, e);
      ByteBitsSnoc(BytesOf(p), ByteOf(e));
      ByteOfBits(e);
    }
  }
}
