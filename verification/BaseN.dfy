/**
  Text in base 16, 32 and 64: the bits of a byte string regrouped into characters of four, five or
  six bits, as in sections 4, 6 and 8 of RFC 4648.
*/
module BaseN {
  import opened Bytes
  import opened Arithmetic
  import opened Bits
  import opened Sequences

  /** What a base is: bits per character, the dictionary, and the value of a character or -1. */
  datatype Traits = Traits(groupLength: nat, encode: nat -> char, decode: char -> int)

  predicate IsSpace(c: char) {
    c == ' ' || 9 <= c as int <= 13
  }

  /** A character that carries bits. */
  predicate Carries(t: Traits, c: char) {
    c != '=' && !IsSpace(c) && t.decode(c) != -1
  }

  /**
    Four, five or six bits to a character; the dictionary avoids the equal sign and white space and is undone by
    decode.
  */
  ghost predicate Sound(t: Traits) {
    && 4 <= t.groupLength <= 6
    && (forall d: nat :: d < Pow2(t.groupLength) ==> Carries(t, t.encode(d)) && t.decode(t.encode(d)) == d)
    && (forall c :: -1 <= t.decode(c) < Pow2(t.groupLength))
  }

  // ---------- Cutting bits out of bytes ----------

  /** Shift right and mask: a group within one byte. */
  function ExtractPartial(value: Byte, start: nat, count: nat): nat
    requires start + count < 8
  {
    ShiftRight(value, 8 - count - start) % Pow2(count)
  }

  /** A group that runs over from one byte into the next; the two parts have no bit in common, so `|` is `+`. */
  function ExtractOverlapping(previous: Byte, next: Byte, start: nat, count: nat): nat
    requires start < 8 <= start + count < 16
  {
    var countInNext := start + count - 8;
    var t1 := ShiftLeft(previous, countInNext) % 256;
    var t2 := ShiftRight(next, 8 - countInNext) % Pow2(countInNext);
    (t1 + t2) % Pow2(count)
  }

  /** A window of a number, as a number. */
  lemma WindowNum(n: nat, w: nat, start: nat, count: nat)
    requires start + count <= w
    ensures Num(Slice(BitsOf(n, w), start, start + count)) == ShiftRight(n, w - start - count) % Pow2(count)
  {
    Window(n, w, start, count);
    NumOfLow(ShiftRight(n, w - start - count), count);
  }

  lemma PartialIs(value: Byte, start: nat, count: nat)
    requires start + count < 8
    ensures Num(Slice(OneByte(value), start, start + count)) == ExtractPartial(value, start, count)
  {
    WindowNum(value, ByteWidth(), start, count);
  }

  lemma {:induction false} ShiftSum(a: nat, b: nat, k: nat)
    ensures ShiftRight(ShiftLeft(a, k) + b, k) == a + ShiftRight(b, k)
  {
    if k > 0 {
      assert (ShiftLeft(a, k) + b) / 2 == ShiftLeft(a, k - 1) + b / 2;
      ShiftSum(a, b / 2, k - 1);
    }
  }

  lemma {:induction false} ShiftTwice(p: nat, m: nat, n: nat)
    ensures ShiftLeft(ShiftLeft(p, m), n) == ShiftLeft(p, m + n)
  {
    if n > 0 { ShiftTwice(p, m, n - 1); }
  }

  lemma {:induction false} ShiftBound(n: nat, m: nat, k: nat)
    requires n < Pow2(m + k)
    ensures ShiftRight(n, k) < Pow2(m)
  {
    if k > 0 { ShiftBound(n / 2, m, k - 1); }
  }

  /** A window over two numbers of w bits each that ends n bits into the second. */
  lemma WindowOverlap(p: nat, q: nat, w: nat, start: nat, count: nat, n: nat)
    requires q < Pow2(w) && n <= w && start + count == w + n && count >= n
    ensures Slice(BitsOf(p, w) + BitsOf(q, w), start, start + count)
         == BitsOf(ShiftLeft(p, n) + ShiftRight(q, w - n), count)
  {
    BitsConcat(p, q, w, w);
    Window(ShiftLeft(p, w) + q, w + w, start, count);
    ShiftTwice(p, n, w - n);
    ShiftSum(ShiftLeft(p, n), q, w - n);
  }

  lemma OverlapNum(p: nat, q: nat, w: nat, start: nat, count: nat, n: nat)
    requires q < Pow2(w) && n <= w && start + count == w + n && count >= n
    ensures Num(Slice(BitsOf(p, w) + BitsOf(q, w), start, start + count))
         == (ShiftLeft(p, n) + ShiftRight(q, w - n)) % Pow2(count)
  {
    NumOfLow(ShiftLeft(p, n) + ShiftRight(q, w - n), count);
    WindowOverlap(p, q, w, start, count, n);
  }

  lemma ByteFits(b: Byte)
    ensures b < Pow2(ByteWidth())
  {
    assert Pow2(8) == 256;
  }

  lemma OverlapIs(previous: Byte, next: Byte, start: nat, count: nat)
    requires start < 8 <= start + count < 16 && 4 <= count <= 6
    ensures Num(Slice(OneByte(previous) + OneByte(next), start, start + count))
         == ExtractOverlapping(previous, next, start, count)
  {
    var n := start + count - 8;
    ByteFits(next);
    ShiftBound(next, n, 8 - n);
    OverlapNum(previous, next, ByteWidth(), start, count, n);
    OverlappingSum(previous, next, start, count, n);
  }

  lemma OverlappingSum(previous: Byte, next: Byte, start: nat, count: nat, n: nat)
    requires start < 8 <= start + count < 16 && 4 <= count <= 6 && n == start + count - 8
    requires ShiftRight(next, 8 - n) < Pow2(n)
    ensures ExtractOverlapping(previous, next, start, count)
         == (ShiftLeft(previous, n) + ShiftRight(next, 8 - n)) % Pow2(count)
  {
    MasksHarmless(ShiftLeft(previous, n), ShiftRight(next, 8 - n), n, count);
  }

  /** Cutting the first part to a byte and the second to its n bits changes nothing below the mask of the whole. */
  lemma MasksHarmless(a: nat, b: nat, n: nat, count: nat)
    requires b < Pow2(n) && 4 <= count <= 6
    ensures (a % 256 + b % Pow2(n)) % Pow2(count) == (a + b) % Pow2(count)
  {
    Small(b, Pow2(n));
    assert Pow2(4) == 16 && Pow2(5) == 32 && Pow2(6) == 64;
    var k, c := a / 256, a % 256 + b;
    assert a + b == 256 * k + c;
    if count == 4 { Fold16(k, c); } else if count == 5 { Fold32(k, c); } else { Fold64(k, c); }
  }

  lemma Fold16(k: nat, c: nat)
    ensures (256 * k + c) % 16 == c % 16
  {
    DivMod(16 * k + c / 16, 16, c % 16);
  }

  lemma Fold32(k: nat, c: nat)
    ensures (256 * k + c) % 32 == c % 32
  {
    DivMod(8 * k + c / 32, 32, c % 32);
  }

  lemma Fold64(k: nat, c: nat)
    ensures (256 * k + c) % 64 == c % 64
  {
    DivMod(4 * k + c / 64, 64, c % 64);
  }

  lemma Small(b: nat, m: nat)
    requires b < m
    ensures b % m == b
  {
  }

  // ---------- What the text of a byte string is ----------

  /** The bits of a byte string with zero bits after them. */
  function Stream(x: seq<Byte>): (s: seq<bool>)
    ensures |s| == 8 * |x| + 8
  {
    ByteBits(x + [0])
  }

  /** How many equal signs bring a position to a whole byte. */
  function PadCount(g: nat, bit: nat): nat {
    if g == 4 then bit % 8 / 4 else if g == 5 then 3 * bit % 8 else bit % 8 / 2
  }

  function EqualSigns(n: nat): (s: string)
    ensures |s| == n && forall i :: 0 <= i < n ==> s[i] == '='
  {
    seq(n, i => '=')
  }

  /** The character of the group of bits at a position. */
  function CharAt(t: Traits, s: seq<bool>, pos: nat): char
    requires pos + t.groupLength <= |s|
  {
    t.encode(Num(Slice(s, pos, pos + t.groupLength)))
  }

  /** The characters of the groups that begin before the limit, and equal signs up to a whole number of bytes. */
  function TextFrom(t: Traits, s: seq<bool>, pos: nat, limit: nat): string
    requires 0 < t.groupLength && limit + t.groupLength <= |s| + 1
    decreases limit - pos
  {
    if pos >= limit then EqualSigns(PadCount(t.groupLength, pos))
    else [CharAt(t, s, pos)] + TextFrom(t, s, pos + t.groupLength, limit)
  }

  function Encoded(t: Traits, x: seq<Byte>): string
    requires 4 <= t.groupLength <= 6
  {
    TextFrom(t, Stream(x), 0, 8 * |x|)
  }

  // ---------- Encode ----------

  /** A group inside one byte. */
  lemma GroupWithin(x: seq<Byte>, i: nat, start: nat, g: nat)
    requires i < |x| && start + g < 8
    ensures Num(Slice(Stream(x), 8 * i + start, 8 * i + start + g)) == ExtractPartial(x[i], start, g)
  {
    hide Slice, Num, ExtractPartial, ByteBits;
    ByteAt(x + [0], i);
    SliceOfSlice(Stream(x), 8 * i, 8 * i + 8, start, start + g);
    PartialIs(x[i], start, g);
  }

  /** A group that begins in one byte and ends in the next, or in the zeros after the last. */
  lemma GroupAcross(x: seq<Byte>, i: nat, start: nat, g: nat)
    requires i < |x| && start < 8 <= start + g < 16 && 4 <= g <= 6
    ensures Num(Slice(Stream(x), 8 * i + start, 8 * i + start + g))
         == ExtractOverlapping(x[i], if i + 1 < |x| then x[i + 1] else 0, start, g)
  {
    hide Slice, Num, ExtractOverlapping, ByteBits;
    var y := x + [0];
    ByteAt(y, i);
    ByteAt(y, i + 1);
    var both := OneByte(y[i]) + OneByte(y[i + 1]);
    SliceJoin(Stream(x), 8 * i, 8 * i + 8, 8 * i + 16);
    SliceOfSlice(Stream(x), 8 * i, 8 * i + 16, start, start + g);
    OverlapIs(y[i], y[i + 1], start, g);
  }

  /** The bit positions the groups of a base can end on. */
  predicate Aligned(g: nat, bit: nat) {
    if g == 4 then bit % 4 == 0 else if g == 5 then true else bit % 2 == 0
  }

  lemma PadStep(g: nat, bit: nat)
    requires 4 <= g <= 6 && 0 < bit < 8 && Aligned(g, bit)
    ensures PadCount(g, (bit + g) % 8) + 1 == PadCount(g, bit) && Aligned(g, (bit + g) % 8)
  {
    var next := (bit + g) % 8;
    if g == 4 { assert bit == 4; }
    else if g == 6 { assert bit == 2 || bit == 4 || bit == 6; }
    else { assert bit == 1 || bit == 2 || bit == 3 || bit == 4 || bit == 5 || bit == 6 || bit == 7; }
  }

  method EmitPads(g: nat, bit: nat) returns (pads: string)
    requires 4 <= g <= 6 && bit < 8 && Aligned(g, bit)
    ensures pads == EqualSigns(PadCount(g, bit))
  {
    pads := "";
    var startBit: nat := bit;
    while startBit != 0
      invariant startBit < 8 && Aligned(g, startBit)
      invariant pads == EqualSigns(|pads|) && |pads| + PadCount(g, startBit) == PadCount(g, bit)
      decreases PadCount(g, startBit)
    {
      PadStep(g, startBit);
      pads := pads + "=";
      startBit := (startBit + g) % 8;
    }
  }

  lemma AlignedNext(g: nat, bit: nat, next: nat)
    requires 4 <= g <= 6 && Aligned(g, bit) && (next == bit + g || next + 8 == bit + g)
    ensures Aligned(g, next)
  {
    if g == 4 { FourOn(bit, next); } else if g == 6 { SixOn(bit, next); }
  }

  lemma FourOn(bit: nat, next: nat)
    requires bit % 4 == 0 && (next == bit + 4 || next + 4 == bit)
    ensures next % 4 == 0
  {
  }

  lemma SixOn(bit: nat, next: nat)
    requires bit % 2 == 0 && (next == bit + 6 || next + 2 == bit)
    ensures next % 2 == 0
  {
  }

  lemma PadCountOf(g: nat, pos: nat)
    ensures PadCount(g, pos) == PadCount(g, pos % 8)
  {
    var q, r := pos / 8, pos % 8;
    assert 3 * pos == 8 * (3 * q) + 3 * r;
  }

  /** What is written and what is still to come, from a position on, make up the whole text. */
  ghost predicate Remains(t: Traits, s: seq<bool>, limit: nat, whole: string, out: string, pos: nat) {
    0 < t.groupLength && limit + t.groupLength <= |s| + 1 && out + TextFrom(t, s, pos, limit) == whole
  }

  lemma OneChar(t: Traits, s: seq<bool>, limit: nat, whole: string, out: string, pos: nat)
    requires Remains(t, s, limit, whole, out, pos) && pos < limit
    ensures Remains(t, s, limit, whole, out + [CharAt(t, s, pos)], pos + t.groupLength)
  {
    var rest := TextFrom(t, s, pos + t.groupLength, limit);
    assert out + [CharAt(t, s, pos)] + rest == out + ([CharAt(t, s, pos)] + rest);
  }

  ghost predicate Progress(t: Traits, x: seq<Byte>, out: string, iter: nat, startBit: nat) {
    && 4 <= t.groupLength <= 6 && startBit < 8 && Aligned(t.groupLength, startBit)
    && RemainsFrom(t, x, out, 8 * iter + startBit)
  }

  ghost predicate RemainsFrom(t: Traits, x: seq<Byte>, out: string, pos: nat) {
    4 <= t.groupLength <= 6 && Remains(t, Stream(x), 8 * |x|, Encoded(t, x), out, pos)
  }

  lemma OneMore(t: Traits, x: seq<Byte>, out: string, pos: nat, next: nat)
    requires RemainsFrom(t, x, out, pos) && pos < 8 * |x| && next == pos + t.groupLength
    ensures RemainsFrom(t, x, out + [CharAt(t, Stream(x), pos)], next)
  {
    hide Remains, CharAt, Stream, Encoded;
    OneChar(t, Stream(x), 8 * |x|, Encoded(t, x), out, pos);
  }

  lemma OneWritten(t: Traits, x: seq<Byte>, out: string, iter: nat, startBit: nat, nextIter: nat, nextBit: nat)
    requires Progress(t, x, out, iter, startBit) && iter < |x|
    requires nextBit < 8 && ((nextIter == iter && nextBit == startBit + t.groupLength)
                             || (nextIter == iter + 1 && nextBit + 8 == startBit + t.groupLength))
    ensures Progress(t, x, out + [CharAt(t, Stream(x), 8 * iter + startBit)], nextIter, nextBit)
  {
    hide RemainsFrom, CharAt, Stream, Aligned;
    AlignedNext(t.groupLength, startBit, nextBit);
    assert 8 * nextIter + nextBit == 8 * iter + startBit + t.groupLength;
    OneMore(t, x, out, 8 * iter + startBit, 8 * nextIter + nextBit);
  }

  lemma AllWritten(t: Traits, x: seq<Byte>, out: string, iter: nat, startBit: nat)
    requires Progress(t, x, out, iter, startBit) && iter >= |x|
    ensures Aligned(t.groupLength, startBit) && out + EqualSigns(PadCount(t.groupLength, startBit)) == Encoded(t, x)
  {
    DivMod(iter, 8, startBit);
    PadCountOf(t.groupLength, 8 * iter + startBit);
  }

  lemma NothingWritten(t: Traits, x: seq<Byte>)
    requires 4 <= t.groupLength <= 6
    ensures Progress(t, x, "", 0, 0)
  {
    assert "" + Encoded(t, x) == Encoded(t, x);
  }

  method CharWithin(t: Traits, x: seq<Byte>, iter: nat, startBit: nat) returns (c: char)
    requires 4 <= t.groupLength <= 6 && iter < |x| && startBit + t.groupLength < 8
    ensures c == CharAt(t, Stream(x), 8 * iter + startBit)
  {
    hide Slice, Num, Stream, ExtractPartial;
    var v := ExtractPartial(x[iter], startBit, t.groupLength);
    GroupWithin(x, iter, startBit, t.groupLength);
    c := t.encode(v);
  }

  method CharAcross(t: Traits, x: seq<Byte>, iter: nat, backlog: Byte, startBit: nat) returns (c: char)
    requires 4 <= t.groupLength <= 6 && 1 <= iter <= |x| && backlog == x[iter - 1]
    requires startBit < 8 <= startBit + t.groupLength
    ensures c == CharAt(t, Stream(x), 8 * (iter - 1) + startBit)
  {
    hide Slice, Num, Stream, ExtractOverlapping;
    var v := ExtractOverlapping(backlog, if iter < |x| then x[iter] else 0, startBit, t.groupLength);
    GroupAcross(x, iter - 1, startBit, t.groupLength);
    c := t.encode(v);
  }

  method EmitWithin(t: Traits, x: seq<Byte>, out: string, iter: nat, startBit: nat) returns (longer: string)
    requires Progress(t, x, out, iter, startBit) && iter < |x| && startBit + t.groupLength < 8
    ensures Progress(t, x, longer, iter, startBit + t.groupLength)
  {
    var c := CharWithin(t, x, iter, startBit);
    OneWritten(t, x, out, iter, startBit, iter, startBit + t.groupLength);
    longer := out + [c];
  }

  lemma Wrap(bit: nat)
    requires 8 <= bit < 16
    ensures bit % 8 == bit - 8
  {
  }

  method EmitAcross(t: Traits, x: seq<Byte>, out: string, iter: nat, backlog: Byte, startBit: nat)
      returns (longer: string, nextBit: nat)
    requires 4 <= t.groupLength <= 6 && 1 <= iter <= |x|
    requires backlog == x[iter - 1] && startBit < 8 <= startBit + t.groupLength
    requires Progress(t, x, out, iter - 1, startBit)
    ensures nextBit < 8 && Progress(t, x, longer, iter, nextBit)
  {
    hide *;
    nextBit := (startBit + t.groupLength) % 8;
    Wrap(startBit + t.groupLength);
    var c := CharAcross(t, x, iter, backlog, startBit);
    OneWritten(t, x, out, iter - 1, startBit, iter, nextBit);
    longer := out + [c];
  }

  method Encode(t: Traits, x: seq<Byte>) returns (out: string)
    requires 4 <= t.groupLength <= 6
    ensures out == Encoded(t, x)
  {
    hide *;
    var iter: nat, startBit: nat := 0, 0;
    var hasBacklog, backlog := false, 0;
    out := "";
    NothingWritten(t, x);
    ghost var at: nat := 0;
    while hasBacklog || iter < |x|
      invariant iter <= |x| && startBit < 8 && iter == if hasBacklog then at + 1 else at
      invariant hasBacklog ==> backlog == x[at] && startBit + t.groupLength >= 8
      invariant Progress(t, x, out, at, startBit)
      decreases |x| - at, 8 - startBit, if hasBacklog then 0 else 1
    {
      if !hasBacklog {
        if startBit + t.groupLength < 8 {
          out := EmitWithin(t, x, out, iter, startBit);
          startBit := startBit + t.groupLength;
        } else {
          backlog := x[iter];
          iter := iter + 1;
          hasBacklog := true;
        }
      } else {
        out, startBit := EmitAcross(t, x, out, iter, backlog, startBit);
        hasBacklog := false;
        at := iter;
      }
    }
    AllWritten(t, x, out, iter, startBit);
    var pads := EmitPads(t.groupLength, startBit);
    out := out + pads;
  }

  // ---------- What a text decodes to ----------

  /** The bits a text carries and the equal signs in it. */
  datatype Scanned = Scanned(bits: seq<bool>, equals: nat)

  function CharBits(t: Traits, c: char): seq<bool> {
    if Carries(t, c) && t.decode(c) >= 0 then BitsOf(t.decode(c), t.groupLength) else []
  }

  function Scan(t: Traits, text: string): Scanned {
    if text == [] then Scanned([], 0)
    else
      var before, c := Scan(t, text[..|text| - 1]), text[|text| - 1];
      Scanned(before.bits + CharBits(t, c), before.equals + if c == '=' then 1 else 0)
  }

  function Falses(n: nat): (s: seq<bool>)
    ensures |s| == n && forall i :: 0 <= i < n ==> !s[i]
  {
    seq(n, i => false)
  }

  /** All whole bytes of the bits, and then the bits left over, unless the equal signs account for them. */
  function DecodedBits(g: nat, bits: seq<bool>, equals: nat): seq<Byte> {
    var whole := |bits| / 8 * 8;
    var rest := Slice(bits, whole, |bits|);
    BytesOf(Slice(bits, 0, whole))
    + if rest != [] && (equals * g + |rest|) % 8 != 0 then [ByteOf(rest + Falses(8 - |rest|))] else []
  }

  function Decoded(t: Traits, text: string): seq<Byte> {
    DecodedBits(t.groupLength, Scan(t, text).bits, Scan(t, text).equals)
  }

  lemma DecodedIs(t: Traits, text: string, bits: seq<bool>, equals: nat)
    requires Scan(t, text) == Scanned(bits, equals)
    ensures Decoded(t, text) == DecodedBits(t.groupLength, bits, equals)
  {
  }

  // ---------- Decode ----------

  /** The bits read so far are those of the bytes written and the pending ones in the front of the buffer byte. */
  ghost predicate Read(bits: seq<bool>, output: seq<Byte>, pending: seq<bool>, buffer: nat) {
    bits == ByteBits(output) + pending && |pending| < 8 && buffer == ShiftLeft(Num(pending), 8 - |pending|)
  }

  lemma {:induction false} NumSnocBits(a: seq<bool>, v: nat, k: nat)
    requires v < Pow2(k)
    ensures Num(a + BitsOf(v, k)) == ShiftLeft(Num(a), k) + v
    decreases k
  {
    if k == 0 {
      assert a + BitsOf(v, 0) == a;
    } else {
      NumSnocBits(a, v / 2, k - 1);
      var all := a + BitsOf(v, k);
      assert all[..|all| - 1] == a + BitsOf(v / 2, k - 1) && all[|all| - 1] == (v % 2 == 1);
    }
  }

  lemma {:induction false} ShiftLeftSum(a: nat, b: nat, k: nat)
    ensures ShiftLeft(a + b, k) == ShiftLeft(a, k) + ShiftLeft(b, k)
  {
    if k > 0 { ShiftLeftSum(a, b, k - 1); }
  }

  /** The buffer byte with a value behind the pending bits. */
  lemma BufferWith(pending: seq<bool>, v: nat, g: nat, k: nat)
    requires v < Pow2(g)
    ensures ShiftLeft(Num(pending), g + k) + ShiftLeft(v, k) == ShiftLeft(Num(pending + BitsOf(v, g)), k)
  {
    NumSnocBits(pending, v, g);
    ShiftLeftSum(ShiftLeft(Num(pending), g), v, k);
    ShiftTwice(Num(pending), g, k);
  }

  /** A value that fits into the buffer byte goes behind the bits already there. */
  lemma FitsIn(bits: seq<bool>, output: seq<Byte>, pending: seq<bool>, buffer: nat, v: nat, g: nat, k: nat)
    requires Read(bits, output, pending, buffer) && v < Pow2(g) && |pending| + g + k == 8 && k > 0
    ensures Read(bits + BitsOf(v, g), output, pending + BitsOf(v, g), buffer + ShiftLeft(v, k))
  {
    BufferWith(pending, v, g, k);
    Behind(ByteBits(output), pending, BitsOf(v, g));
  }

  lemma EightBound(bits: seq<bool>)
    requires |bits| == 8
    ensures Num(bits) < 256
  {
    NumBound(bits);
    assert Pow2(8) == 256;
  }

  /** The bits in front fill the byte up: it is written, and the buffer is empty. */
  lemma FillsUp(bits: seq<bool>, output: seq<Byte>, pending: seq<bool>, buffer: nat, v: nat, k: nat)
    requires Read(bits, output, pending, buffer) && v < Pow2(k) && |pending| + k == 8
    ensures buffer + v < 256 && Read(bits + BitsOf(v, k), output + [buffer + v], [], 0)
  {
    FullByte(pending, v, k);
    ByteBitsSnoc(output, buffer + v);
    Behind(ByteBits(output), pending, BitsOf(v, k));
    EmptyRead(output + [buffer + v]);
  }

  lemma FullByte(pending: seq<bool>, v: nat, k: nat)
    requires v < Pow2(k) && |pending| + k == 8
    ensures var b := ShiftLeft(Num(pending), k) + v; b < 256 && OneByte(b) == pending + BitsOf(v, k)
  {
    NumSnocBits(pending, v, k);
    EightBound(pending + BitsOf(v, k));
    ByteOfBits(pending + BitsOf(v, k));
  }

  lemma EmptyRead(output: seq<Byte>)
    ensures Read(ByteBits(output), output, [], 0)
  {
    ShiftOfZero(8);
    assert ByteBits(output) == ByteBits(output) + [];
  }

  lemma {:induction false} ShiftOfZero(k: nat)
    ensures ShiftLeft(0, k) == 0
  {
    if k > 0 { ShiftOfZero(k - 1); }
  }

  /** A value cut in two: its upper part and its m low-order bits. */
  lemma SplitValue(v: nat, g: nat, m: nat)
    requires v < Pow2(g) && m <= g
    ensures BitsOf(v, g) == BitsOf(ShiftRight(v, m), g - m) + BitsOf(v % Pow2(m), m)
    ensures ShiftRight(v, m) < Pow2(g - m)
  {
    ShiftBound(v, g - m, m);
    LowValue(v, m);
    CutBits(v, g, m);
  }

  lemma LowValue(v: nat, m: nat)
    ensures BitsOf(v % Pow2(m), m) == BitsOf(v, m)
  {
    NumOfLow(v, m);
    BitsOfNum(BitsOf(v, m));
  }

  lemma CutBits(v: nat, g: nat, m: nat)
    requires m <= g
    ensures BitsOf(v, g) == BitsOf(ShiftRight(v, m), g - m) + BitsOf(v, m)
  {
    UpperBits(v, g, m);
    LowerBits(v, g, m);
    SliceJoin(BitsOf(v, g), 0, g - m, g);
    assert Slice(BitsOf(v, g), 0, g) == BitsOf(v, g);
  }

  /** Cutting a shifted value to the byte drops the bits above its m low-order ones. */
  lemma {:induction false} CutShift(v: nat, m: nat, k: nat)
    ensures ShiftLeft(v, k) % Pow2(m + k) == ShiftLeft(v % Pow2(m), k)
  {
    if k > 0 {
      CutShift(v, m, k - 1);
      DoubleModulo(ShiftLeft(v, k - 1), Pow2(m + k - 1));
    }
  }

  lemma DoubleModulo(a: nat, p: nat)
    requires p > 0
    ensures 2 * a % (2 * p) == 2 * (a % p)
  {
    var q, r := a / p, a % p;
    assert a == q * p + r;
    assert 2 * a == q * (2 * p) + 2 * r;
    DivMod(q, 2 * p, 2 * r);
  }

  lemma BitsOfZero(k: nat)
    ensures BitsOf(0, k) == Falses(k)
  {
    if k > 0 { BitsOfZero(k - 1); }
  }

  /** Taking in one value: into the buffer byte, or over its end into the next one. */
  method TakeValue(v: nat, g: nat, output: seq<Byte>, buffer: nat, currentBit: nat, ghost bits: seq<bool>,
                   ghost pending: seq<bool>)
    returns (newOutput: seq<Byte>, newBuffer: nat, newBit: nat, ghost newPending: seq<bool>)
    requires 4 <= g <= 6 && v < Pow2(g) && currentBit == |pending| && Read(bits, output, pending, buffer)
    ensures newBit == |newPending| && Read(bits + BitsOf(v, g), newOutput, newPending, newBuffer)
  {
    var bitsInCurrentByte := (if currentBit + g < 8 then currentBit + g else 8) - currentBit;
    if bitsInCurrentByte == g {
      newOutput, newBuffer, newBit, newPending := TakeWithin(v, g, output, buffer, currentBit, bits, pending);
    } else {
      newOutput, newBuffer, newBit, newPending := TakeAcross(v, g, output, buffer, bitsInCurrentByte, bits, pending);
    }
  }

  method TakeWithin(v: nat, g: nat, output: seq<Byte>, buffer: nat, currentBit: nat, ghost bits: seq<bool>,
                    ghost pending: seq<bool>)
    returns (newOutput: seq<Byte>, newBuffer: nat, newBit: nat, ghost newPending: seq<bool>)
    requires v < Pow2(g) && currentBit + g <= 8 && currentBit == |pending| && Read(bits, output, pending, buffer)
    ensures newBit == |newPending| && Read(bits + BitsOf(v, g), newOutput, newPending, newBuffer)
  {
    var k := 8 - currentBit - g;
    Uncut(v, currentBit, g);
    newBuffer := buffer + ShiftLeft(v, k) % 256;
    newBit := currentBit + g;
    if newBit == 8 {
      FillsUp(bits, output, pending, buffer, v, g);
      newOutput, newBuffer, newBit, newPending := output + [newBuffer], 0, 0, [];
    } else {
      FitsIn(bits, output, pending, buffer, v, g, k);
      newOutput, newPending := output, pending + BitsOf(v, g);
    }
  }

  method TakeAcross(v: nat, g: nat, output: seq<Byte>, buffer: nat, bitsInCurrentByte: nat, ghost bits: seq<bool>,
                    ghost pending: seq<bool>)
    returns (newOutput: seq<Byte>, newBuffer: nat, newBit: nat, ghost newPending: seq<bool>)
    requires v < Pow2(g) && |pending| + bitsInCurrentByte == 8
    requires bitsInCurrentByte < g <= 6 && Read(bits, output, pending, buffer)
    ensures newBit == |newPending| && Read(bits + BitsOf(v, g), newOutput, newPending, newBuffer)
  {
    var m := g - bitsInCurrentByte;
    AcrossRead(bits, output, pending, buffer, v, g, m);
    newOutput := output + [buffer + ShiftRight(v, m)];
    newBuffer := ShiftLeft(v, 8 - m) % 256;
    newBit := m;
    newPending := BitsOf(v % Pow2(m), m);
  }

  /** The upper part of a value fills the byte, its m low-order bits begin the next one. */
  lemma AcrossRead(bits: seq<bool>, output: seq<Byte>, pending: seq<bool>, buffer: nat, v: nat, g: nat, m: nat)
    requires v < Pow2(g) && m <= g && |pending| + g == 8 + m && m < 8 && Read(bits, output, pending, buffer)
    ensures buffer + ShiftRight(v, m) < 256
    ensures Read(bits + BitsOf(v, g), output + [buffer + ShiftRight(v, m)], BitsOf(v % Pow2(m), m),
                 ShiftLeft(v, 8 - m) % 256)
  {
    hide *;
    SplitValue(v, g, m);
    var upper := BitsOf(ShiftRight(v, m), g - m);
    FillsUp(bits, output, pending, buffer, ShiftRight(v, m), g - m);
    StartsAnew(bits + upper, output + [buffer + ShiftRight(v, m)], v, m);
    Behind(bits, upper, BitsOf(v % Pow2(m), m));
  }

  /** A value that fits is not cut by the mask of the byte. */
  lemma Uncut(v: nat, currentBit: nat, g: nat)
    requires v < Pow2(g) && currentBit + g <= 8
    ensures ShiftLeft(v, 8 - currentBit - g) % 256 == ShiftLeft(v, 8 - currentBit - g)
  {
    ShiftLeftBound(v, g, 8 - currentBit - g);
    PowBelow256(8 - currentBit);
  }

  lemma {:induction false} ShiftLeftBound(v: nat, g: nat, k: nat)
    requires v < Pow2(g)
    ensures ShiftLeft(v, k) < Pow2(g + k)
  {
    if k > 0 { ShiftLeftBound(v, g, k - 1); }
  }

  lemma PowBelow256(n: nat)
    requires n <= 8
    ensures Pow2(n) <= 256
    decreases 8 - n
  {
    if n < 8 { PowBelow256(n + 1); } else { assert Pow2(8) == 256; }
  }

  /** The low-order bits of a value that ran over begin the next buffer byte. */
  lemma StartsAnew(bits: seq<bool>, output: seq<Byte>, v: nat, m: nat)
    requires Read(bits, output, [], 0) && m < 8
    ensures Read(bits + BitsOf(v % Pow2(m), m), output, BitsOf(v % Pow2(m), m), ShiftLeft(v, 8 - m) % 256)
  {
    CutShift(v, m, 8 - m);
    assert Pow2(8) == 256;
    FitsIn(bits, output, [], 0, v % Pow2(m), m, 8 - m);
    assert [] + BitsOf(v % Pow2(m), m) == BitsOf(v % Pow2(m), m);
  }

  lemma ScanNext(t: Traits, text: string, i: nat)
    requires i < |text|
    ensures Scan(t, text[..i + 1])
         == Scanned(Scan(t, text[..i]).bits + CharBits(t, text[i]),
                    Scan(t, text[..i]).equals + if text[i] == '=' then 1 else 0)
  {
    assert text[..i + 1][..i] == text[..i];
  }

  /** The buffer byte is the pending bits with zeros behind them. */
  lemma TailByte(pending: seq<bool>, k: nat)
    requires |pending| + k == 8
    ensures ShiftLeft(Num(pending), k) == ByteOf(pending + Falses(k))
  {
    NumSnocBits(pending, 0, k);
    BitsOfZero(k);
  }

  lemma WholeBytes(output: seq<Byte>, pending: seq<bool>)
    requires |pending| < 8
    ensures var bits := ByteBits(output) + pending; var whole := |bits| / 8 * 8;
      BytesOf(Slice(bits, 0, whole)) == output && Slice(bits, whole, |bits|) == pending
  {
    BytesOfBits(output);
    hide ByteBits, BytesOf, Slice;
    var bits := ByteBits(output) + pending;
    assert |bits| / 8 * 8 == 8 * |output|;
    SliceOfSum(ByteBits(output), pending);
  }

  lemma DecodedBitsAre(g: nat, output: seq<Byte>, pending: seq<bool>, equals: nat)
    requires |pending| < 8
    ensures DecodedBits(g, ByteBits(output) + pending, equals)
         == if pending != [] && (equals * g + |pending|) % 8 != 0
            then output + [ByteOf(pending + Falses(8 - |pending|))]
            else output
  {
    WholeBytes(output, pending);
  }

  /** Write out the bits left over, if the equal signs do not account for them. */
  method Flush(g: nat, output: seq<Byte>, buffer: nat, currentBit: nat, equals: nat, ghost bits: seq<bool>,
               ghost pending: seq<bool>)
    returns (all: seq<Byte>)
    requires currentBit == |pending| && Read(bits, output, pending, buffer)
    ensures all == DecodedBits(g, bits, equals)
  {
    DecodedBitsAre(g, output, pending, equals);
    TailByte(pending, 8 - |pending|);
    all := output;
    if currentBit != 0 {
      if (equals * g + currentBit) % 8 != 0 {
        all := output + [buffer];
      }
    }
  }

  /** Take in one character; white space, equal signs and characters outside the dictionary carry no bits. */
  method TakeChar(t: Traits, c: char, output: seq<Byte>, buffer: nat, currentBit: nat, ghost bits: seq<bool>,
                  ghost pending: seq<bool>)
    returns (newOutput: seq<Byte>, newBuffer: nat, newBit: nat, ghost newPending: seq<bool>)
    requires Sound(t) && currentBit == |pending| && Read(bits, output, pending, buffer)
    ensures newBit == |newPending| && Read(bits + CharBits(t, c), newOutput, newPending, newBuffer)
  {
    newOutput, newBuffer, newBit, newPending := output, buffer, currentBit, pending;
    var value := t.decode(c);
    if c != '=' && !IsSpace(c) && value != -1 {
      newOutput, newBuffer, newBit, newPending :=
        TakeValue(value, t.groupLength, output, buffer, currentBit, bits, pending);
    } else {
      assert bits + [] == bits;
    }
  }

  method Decode(t: Traits, text: string) returns (output: seq<Byte>)
    requires Sound(t)
    ensures output == Decoded(t, text)
  {
    var i, currentBit: nat, buffer: nat, equals: nat := 0, 0, 0, 0;
    output := [];
    ghost var pending: seq<bool>, bits: seq<bool> := [], [];
    EmptyRead([]);
    while i < |text|
      invariant 0 <= i <= |text| && currentBit == |pending|
      invariant Scan(t, text[..i]) == Scanned(bits, equals)
      invariant Read(bits, output, pending, buffer)
    {
      ScanNext(t, text, i);
      if text[i] == '=' {
        equals := equals + 1;
      }
      output, buffer, currentBit, pending := TakeChar(t, text[i], output, buffer, currentBit, bits, pending);
      bits := bits + CharBits(t, text[i]);
      i := i + 1;
    }
    assert text[..i] == text;
    DecodedIs(t, text, bits, equals);
    output := Flush(t.groupLength, output, buffer, currentBit, equals, bits, pending);
  }

  // ---------- Round trip ----------

  /** Where the last group that begins before the limit ends. */
  function End(g: nat, pos: nat, limit: nat): (e: nat)
    requires g > 0
    ensures pos <= e && limit <= e && (pos < limit ==> e < limit + g)
    decreases limit - pos
  {
    if pos >= limit then pos else End(g, pos + g, limit)
  }

  lemma {:induction false} EndAligned(g: nat, pos: nat, limit: nat)
    requires 4 <= g <= 6 && Aligned(g, pos)
    ensures Aligned(g, End(g, pos, limit))
    decreases limit - pos
  {
    if pos < limit {
      AlignedNext(g, pos, pos + g);
      EndAligned(g, pos + g, limit);
    }
  }

  lemma {:induction false} ScanAppend(t: Traits, a: string, b: string)
    ensures Scan(t, a + b) == Scanned(Scan(t, a).bits + Scan(t, b).bits, Scan(t, a).equals + Scan(t, b).equals)
    decreases |b|
  {
    if b == [] {
      assert a + b == a;
    } else {
      assert (a + b)[..|a + b| - 1] == a + b[..|b| - 1];
      ScanAppend(t, a, b[..|b| - 1]);
    }
  }

  lemma {:induction false} ScanEqualSigns(t: Traits, n: nat)
    ensures Scan(t, EqualSigns(n)) == Scanned([], n)
  {
    if n > 0 {
      assert EqualSigns(n)[..n - 1] == EqualSigns(n - 1);
      ScanEqualSigns(t, n - 1);
    }
  }

  /** The character of a group carries the bits of the group. */
  lemma ScanChar(t: Traits, s: seq<bool>, pos: nat)
    requires Sound(t) && pos + t.groupLength <= |s|
    ensures Scan(t, [CharAt(t, s, pos)]) == Scanned(Slice(s, pos, pos + t.groupLength), 0)
  {
    var group := Slice(s, pos, pos + t.groupLength);
    var v, c := Num(group), CharAt(t, s, pos);
    NumBound(group);
    BitsOfNum(group);
    assert Carries(t, t.encode(v)) && t.decode(t.encode(v)) == v;
    assert [c][..0] == [];
    assert [] + CharBits(t, c) == CharBits(t, c);
  }

  /** The characters of the groups alone. */
  function Chars(t: Traits, s: seq<bool>, pos: nat, limit: nat): string
    requires 0 < t.groupLength && limit + t.groupLength <= |s| + 1
    decreases limit - pos
  {
    if pos >= limit then [] else [CharAt(t, s, pos)] + Chars(t, s, pos + t.groupLength, limit)
  }

  lemma {:induction false} TextIs(t: Traits, s: seq<bool>, pos: nat, limit: nat)
    requires 0 < t.groupLength && limit + t.groupLength <= |s| + 1
    ensures TextFrom(t, s, pos, limit)
         == Chars(t, s, pos, limit) + EqualSigns(PadCount(t.groupLength, End(t.groupLength, pos, limit)))
    decreases limit - pos
  {
    if pos < limit {
      TextIs(t, s, pos + t.groupLength, limit);
    } else {
      assert [] + EqualSigns(PadCount(t.groupLength, pos)) == EqualSigns(PadCount(t.groupLength, pos));
    }
  }

  lemma CharsNext(t: Traits, s: seq<bool>, pos: nat, limit: nat)
    requires 0 < t.groupLength && limit + t.groupLength <= |s| + 1 && pos < limit
    ensures Chars(t, s, pos, limit) == [CharAt(t, s, pos)] + Chars(t, s, pos + t.groupLength, limit)
    ensures End(t.groupLength, pos, limit) == End(t.groupLength, pos + t.groupLength, limit)
  {
  }

  /** The characters carry the bits they were made of. */
  lemma {:induction false} ScanChars(t: Traits, s: seq<bool>, pos: nat, limit: nat, chars: string, end: nat)
    requires Sound(t) && limit + t.groupLength <= |s| + 1 && pos <= |s|
    requires chars == Chars(t, s, pos, limit) && end == End(t.groupLength, pos, limit)
    ensures pos <= end <= |s| && Scan(t, chars) == Scanned(Slice(s, pos, end), 0)
    decreases limit - pos
  {
    if pos >= limit {
      ScanNothing(t, s, pos);
    } else {
      hide *;
      SoundLength(t);
      var next := pos + t.groupLength;
      CharsNext(t, s, pos, limit);
      ScanChars(t, s, next, limit, Chars(t, s, next, limit), end);
      ScanChar(t, s, pos);
      ScanOneMore(t, s, pos, next, end, CharAt(t, s, pos), Chars(t, s, next, limit));
    }
  }

  lemma ScanNothing(t: Traits, s: seq<bool>, pos: nat)
    requires pos <= |s|
    ensures Scan(t, []) == Scanned(Slice(s, pos, pos), 0)
  {
    assert Slice(s, pos, pos) == [];
  }

  lemma ScanOneMore(t: Traits, s: seq<bool>, pos: nat, next: nat, end: nat, c: char, rest: string)
    requires pos <= next <= end <= |s|
    requires Scan(t, [c]) == Scanned(Slice(s, pos, next), 0) && Scan(t, rest) == Scanned(Slice(s, next, end), 0)
    ensures Scan(t, [c] + rest) == Scanned(Slice(s, pos, end), 0)
  {
    hide *;
    ScanAppend(t, [c], rest);
    SliceJoin(s, pos, next, end);
  }

  /** The text carries the bits it was made of, and the equal signs behind them. */
  lemma ScanText(t: Traits, s: seq<bool>, limit: nat, end: nat)
    requires Sound(t) && limit + t.groupLength <= |s| + 1 && end == End(t.groupLength, 0, limit)
    ensures end <= |s| && Scan(t, TextFrom(t, s, 0, limit)) == Scanned(Slice(s, 0, end), PadCount(t.groupLength, end))
  {
    var pads := PadCount(t.groupLength, end);
    ScanChars(t, s, 0, limit, Chars(t, s, 0, limit), end);
    TextIs(t, s, 0, limit);
    ScanEqualSigns(t, pads);
    ScanAppend(t, Chars(t, s, 0, limit), EqualSigns(pads));
    assert Slice(s, 0, end) + [] == Slice(s, 0, end);
  }

  /** The equal signs bring the number of bits to whole bytes, with fewer than eight characters. */
  lemma PadExact(g: nat, bit: nat)
    requires 4 <= g <= 6 && Aligned(g, bit)
    ensures (PadCount(g, bit) * g + bit % 8) % 8 == 0 && PadCount(g, bit) < 8
  {
    var r := bit % 8;
    if g == 4 {
      assert r == 0 || r == 4;
    } else if g == 5 {
      FivesUp(bit, r);
    } else {
      assert r == 0 || r == 2 || r == 4 || r == 6;
    }
  }

  lemma FivesUp(bit: nat, r: nat)
    requires r == bit % 8
    ensures (3 * bit % 8 * 5 + r) % 8 == 0
  {
    PadCountOf(5, bit);
    assert r == 0 || r == 1 || r == 2 || r == 3 || r == 4 || r == 5 || r == 6 || r == 7;
  }

  /** The last group ends less than a byte behind the byte string, and the equal signs account for the difference. */
  lemma EndFacts(g: nat, n: nat, end: nat, equals: nat)
    requires 4 <= g <= 6 && end == End(g, 0, 8 * n) && equals == PadCount(g, end)
    ensures 8 * n <= end < 8 * n + 8 && (equals * g + (end - 8 * n)) % 8 == 0
  {
    EndAligned(g, 0, 8 * n);
    PadExact(g, end);
    DivMod(n, 8, end - 8 * n);
  }

  /** Bits left over that the equal signs account for are dropped. */
  lemma AccountedFor(g: nat, x: seq<Byte>, pending: seq<bool>, equals: nat)
    requires |pending| < 8 && (equals * g + |pending|) % 8 == 0
    ensures DecodedBits(g, ByteBits(x) + pending, equals) == x
  {
    DecodedBitsAre(g, x, pending, equals);
  }

  /** The text carries the bits of the byte string and fewer than eight more, which its equal signs account for. */
  lemma ScanEncoded(t: Traits, x: seq<Byte>) returns (pending: seq<bool>, equals: nat)
    requires Sound(t)
    ensures Scan(t, Encoded(t, x)) == Scanned(ByteBits(x) + pending, equals)
    ensures |pending| < 8 && (equals * t.groupLength + |pending|) % 8 == 0
  {
    var end := End(t.groupLength, 0, 8 * |x|);
    equals := PadCount(t.groupLength, end);
    EndFacts(t.groupLength, |x|, end, equals);
    pending := Slice(Stream(x), 8 * |x|, end);
    ScanText(t, Stream(x), 8 * |x|, end);
    StreamPrefix(x, end);
  }

  lemma SoundLength(t: Traits)
    requires Sound(t)
    ensures 4 <= t.groupLength <= 6
  {
  }

  /** For every base and every byte string, decoding the text gives back the bytes. */
  lemma RoundTrip(t: Traits, x: seq<Byte>)
    requires Sound(t)
    ensures Decoded(t, Encoded(t, x)) == x
  {
    hide *;
    SoundLength(t);
    var pending, equals := ScanEncoded(t, x);
    DecodedIs(t, Encoded(t, x), ByteBits(x) + pending, equals);
    AccountedFor(t.groupLength, x, pending, equals);
  }

  lemma StreamPrefix(x: seq<Byte>, end: nat)
    requires 8 * |x| <= end <= 8 * |x| + 8
    ensures Slice(Stream(x), 0, end) == ByteBits(x) + Slice(Stream(x), 8 * |x|, end)
  {
    ByteBitsAppend(x, [0]);
    SliceOfSum(ByteBits(x), ByteBits([0]));
    SliceJoin(Stream(x), 0, 8 * |x|, end);
  }

  /** The text is made of whole quanta: its characters, equal signs included, stand for a whole number of bytes. */
  lemma {:induction false} WholeQuanta(t: Traits, s: seq<bool>, pos: nat, limit: nat)
    requires 4 <= t.groupLength <= 6 && limit + t.groupLength <= |s| + 1
    ensures |TextFrom(t, s, pos, limit)| * t.groupLength + pos
         == End(t.groupLength, pos, limit) + PadCount(t.groupLength, End(t.groupLength, pos, limit)) * t.groupLength
    decreases limit - pos
  {
    if pos < limit {
      WholeQuanta(t, s, pos + t.groupLength, limit);
      var k := |TextFrom(t, s, pos + t.groupLength, limit)|;
      assert |TextFrom(t, s, pos, limit)| == 1 + k;
      OneGroupMore(k, t.groupLength);
    }
  }

  lemma OneGroupMore(k: nat, g: nat)
    ensures (1 + k) * g == g + k * g
  {
  }

  lemma FullBytes(end: nat, p: nat)
    requires (p + end % 8) % 8 == 0
    ensures (end + p) % 8 == 0
  {
    assert end + p == 8 * (end / 8) + (p + end % 8);
  }

  lemma Quanta(len: nat, g: nat, end: nat, pads: nat)
    requires len * g + 0 == end + pads * g && (pads * g + end % 8) % 8 == 0
    ensures len * g % 8 == 0
  {
    FullBytes(end, pads * g);
  }

  lemma EncodedQuanta(t: Traits, x: seq<Byte>)
    requires 4 <= t.groupLength <= 6
    ensures |Encoded(t, x)| * t.groupLength % 8 == 0
  {
    var end := End(t.groupLength, 0, 8 * |x|);
    WholeQuanta(t, Stream(x), 0, 8 * |x|);
    EndAligned(t.groupLength, 0, 8 * |x|);
    PadExact(t.groupLength, end);
    Quanta(|Encoded(t, x)|, t.groupLength, end, PadCount(t.groupLength, end));
  }

  // ---------- The three bases ----------

  /** The dictionaries, sixteen characters to a row. */
  function Row16(): (s: string)
    ensures |s| == 16
  {
    "0123456789abcdef"
  }

  function Row32(row: nat): (s: string)
    ensures |s| == 16
  {
    if row == 0 then "ABCDEFGHIJKLMNOP" else "QRSTUVWXYZ234567"
  }

  function Row64(row: nat): (s: string)
    ensures |s| == 16
  {
    if row == 0 then "ABCDEFGHIJKLMNOP" else if row == 1 then "QRSTUVWXYZabcdef"
    else if row == 2 then "ghijklmnopqrstuv" else "wxyz0123456789+/"
  }

  function Encode16(d: nat): char { Row16()[d % 16] }
  function Encode32(d: nat): char { Row32(d / 16)[d % 16] }
  function Encode64(d: nat): char { Row64(d / 16)[d % 16] }

  function Decode16(c: char): int {
    if '0' <= c <= '9' then c as int - '0' as int
    else if 'A' <= c <= 'F' then c as int - 'A' as int + 10
    else if 'a' <= c <= 'f' then c as int - 'a' as int + 10
    else -1
  }

  function Decode32(c: char): int {
    if 'A' <= c <= 'Z' then c as int - 'A' as int
    else if '2' <= c <= '7' then c as int - '2' as int + 26
    else -1
  }

  function Decode64(c: char): int {
    if 'A' <= c <= 'Z' then c as int - 'A' as int
    else if 'a' <= c <= 'z' then c as int - 'a' as int + 26
    else if '0' <= c <= '9' then c as int - '0' as int + 52
    else if c == '+' then 62
    else if c == '/' then 63
    else -1
  }

  const BASE16 := Traits(4, Encode16, Decode16)
  const BASE32 := Traits(5, Encode32, Decode32)
  const BASE64 := Traits(6, Encode64, Decode64)

  predicate Reads16(c: char, d: nat) { c != '=' && !IsSpace(c) && Decode16(c) == d }
  predicate Reads32(c: char, d: nat) { c != '=' && !IsSpace(c) && Decode32(c) == d }
  predicate Reads64(c: char, d: nat) { c != '=' && !IsSpace(c) && Decode64(c) == d }

  lemma Dictionary16(k: nat)
    requires k < 16
    ensures Reads16(Row16()[k], k)
  {
  }

  lemma Dictionary32First(k: nat)
    requires k < 16
    ensures Reads32(Row32(0)[k], k)
  {
  }

  lemma Dictionary32Last(k: nat)
    requires k < 16
    ensures Reads32(Row32(1)[k], 16 + k)
  {
  }

  lemma Dictionary64(row: nat, k: nat)
    requires row < 2 && k < 16
    ensures Reads64(Row64(row)[k], 16 * row + k)
  {
    if row == 0 {} else {}
  }

  lemma Dictionary64More(row: nat, k: nat)
    requires 2 <= row < 4 && k < 16
    ensures Reads64(Row64(row)[k], 16 * row + k)
  {
    if row == 2 {} else {}
  }

  lemma Base16Sound()
    ensures Sound(BASE16)
  {
    assert Pow2(4) == 16;
    forall d: nat | d < 16 ensures Carries(BASE16, Encode16(d)) && Decode16(Encode16(d)) == d { Dictionary16(d); }
  }

  lemma Dictionary32(d: nat)
    requires d < 32
    ensures Carries(BASE32, Encode32(d)) && Decode32(Encode32(d)) == d
  {
    if d < 16 { Dictionary32First(d); } else { Dictionary32Last(d - 16); }
  }

  lemma Base32Sound()
    ensures Sound(BASE32)
  {
    assert Pow2(5) == 32;
    forall d: nat | d < 32 ensures Carries(BASE32, Encode32(d)) && Decode32(Encode32(d)) == d {
      Dictionary32(d);
    }
  }

  lemma Base64Sound()
    ensures Sound(BASE64)
  {
    assert Pow2(6) == 64;
    forall d: nat | d < 64 ensures Carries(BASE64, Encode64(d)) && Decode64(Encode64(d)) == d {
      if d < 32 { Dictionary64(d / 16, d % 16); } else { Dictionary64More(d / 16, d % 16); }
    }
  }
}
