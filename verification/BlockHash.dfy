/**
  A hash that takes its message in pieces: whole blocks go into the state, the rest waits in a
  buffer, and a padding with the length closes the message.  Everything here holds for any function
  that compresses a block into a state.
*/
module BlockHash {
  import opened Arithmetic
  import opened Bits
  import opened Bytes
  import opened Sequences

  const BLOCK := 64

  type Block = b: seq<Byte> | |b| == BLOCK witness seq(BLOCK, i => 0)

  /** All whole blocks, one after the other. */
  function Absorb<S>(f: (S, Block) -> S, s: S, data: seq<Byte>): S
    decreases |data|
  {
    if |data| < BLOCK then s else Absorb(f, f(s, data[..BLOCK]), data[BLOCK..])
  }

  // ---------- Whole blocks, in pieces ----------

  /** Absorbing whole blocks and then more is absorbing it all. */
  lemma {:induction false} AbsorbAppend<S>(f: (S, Block) -> S, s: S, x: seq<Byte>, y: seq<Byte>)
    requires |x| % BLOCK == 0
    ensures Absorb(f, s, x + y) == Absorb(f, Absorb(f, s, x), y)
    decreases |x|
  {
    if x == [] {
      assert x + y == y;
    } else {
      assert (x + y)[..BLOCK] == x[..BLOCK] && (x + y)[BLOCK..] == x[BLOCK..] + y;
      AbsorbAppend(f, f(s, x[..BLOCK]), x[BLOCK..], y);
    }
  }

  lemma AbsorbOne<S>(f: (S, Block) -> S, s: S, x: seq<Byte>, block: Block)
    requires |x| % BLOCK == 0
    ensures Absorb(f, s, x + block) == f(Absorb(f, s, x), block)
  {
    AbsorbAppend(f, s, x, block);
    assert block[..BLOCK] == block;
  }

  /** The longest part of a message that is whole blocks. */
  function Whole(n: nat): (w: nat)
    ensures w <= n && w % BLOCK == 0 && n - w == n % BLOCK < BLOCK
  {
    n / BLOCK * BLOCK
  }

  lemma WholeMessage(x: seq<Byte>)
    requires |x| % BLOCK == 0
    ensures x[..Whole(|x|)] == x
  {
  }

  // ---------- What the counters and the buffer hold ----------

  ghost predicate Holds<S>(f: (S, Block) -> S, start: S, message: seq<Byte>, state: S, buffer: seq<Byte>) {
    && |buffer| == BLOCK
    && state == Absorb(f, start, message[..Whole(|message|)])
    && buffer[..|message| % BLOCK] == message[Whole(|message|)..]
  }

  lemma FilledBlock<S>(f: (S, Block) -> S, start: S, message: seq<Byte>, state: S, buffer: seq<Byte>,
                       bytes: seq<Byte>, full: seq<Byte>)
    requires Holds(f, start, message, state, buffer) && |message| % BLOCK + |bytes| == BLOCK
    requires full == buffer[..|message| % BLOCK] + bytes
    ensures Holds(f, start, message + bytes, f(state, full), full)
  {
    var n := Whole(|message|);
    assert message + bytes == message[..n] + full;
    AbsorbOne(f, start, message[..n], full);
    assert Whole(|message + bytes|) == n + BLOCK == |message + bytes|;
    assert (message + bytes)[..n + BLOCK] == message + bytes;
  }

  lemma NextBlock<S>(f: (S, Block) -> S, start: S, message: seq<Byte>, state: S, buffer: seq<Byte>, block: Block)
    requires Holds(f, start, message, state, buffer) && |message| % BLOCK == 0
    ensures Holds(f, start, message + block, f(state, block), buffer)
  {
    assert message[..Whole(|message|)] == message;
    AbsorbOne(f, start, message, block);
    assert (message + block)[..Whole(|message + block|)] == message + block;
  }

  lemma TailBuffered<S>(f: (S, Block) -> S, start: S, message: seq<Byte>, state: S, buffer: seq<Byte>,
                        rest: seq<Byte>, after: seq<Byte>)
    requires Holds(f, start, message, state, buffer) && |message| % BLOCK + |rest| < BLOCK
    requires var left := |message| % BLOCK;
      after == buffer[..left] + rest + buffer[left + |rest|..]
    ensures Holds(f, start, message + rest, state, after)
  {
    assert Whole(|message + rest|) == Whole(|message|);
    assert (message + rest)[..Whole(|message|)] == message[..Whole(|message|)];
    assert (message + rest)[Whole(|message|)..] == message[Whole(|message|)..] + rest;
  }

  // ---------- Padding ----------

  /** The low-order n bytes of a number, most significant first. */
  function BigEndian(v: nat, n: nat): (s: seq<Byte>)
    ensures |s| == n
  {
    if n == 0 then [] else BigEndian(v / 256, n - 1) + [v % 256]
  }

  function ZeroBytes(n: nat): (s: seq<Byte>)
    ensures |s| == n
  {
    seq(n, i => 0)
  }

  /** The number of zero bytes that brings the message, one more byte and eight of length to whole blocks. */
  function PadZeros(length: nat): (k: nat)
    ensures k < BLOCK && (length + 1 + k + 8) % BLOCK == 0
  {
    (119 - length % BLOCK) % BLOCK
  }

  /** No other number below a block does. */
  lemma PadZerosUnique(length: nat, k: nat)
    requires k < BLOCK && (length + 1 + k + 8) % BLOCK == 0
    ensures k == PadZeros(length)
  {
  }

  function Padding(length: nat): seq<Byte> {
    [0x80] + ZeroBytes(PadZeros(length)) + BigEndian(8 * length, 8)
  }

  /** The padding the code takes from its table of one 0x80 and zeros. */
  lemma PaddingParts(n: nat, padn: nat)
    requires padn == if n % BLOCK < 56 then 56 - n % BLOCK else 120 - n % BLOCK
    ensures padn <= 64 && Padding(n) == ([0x80] + ZeroBytes(63))[..padn] + BigEndian(8 * n, 8)
    ensures (n + |Padding(n)|) % BLOCK == 0
  {
    assert ([0x80] + ZeroBytes(63))[..padn] == [0x80] + ZeroBytes(PadZeros(n));
  }

  type Digest = d: seq<Byte> | |d| == 32 witness seq(32, i => 0)

  /** The hash of a message: all of it and its padding absorbed, and the last state written out. */
  function HashWith<S>(f: (S, Block) -> S, start: S, output: S -> Digest, message: seq<Byte>): Digest {
    output(Absorb(f, start, message + Padding(|message|)))
  }

  // ---------- HMAC, section 2 of RFC 2104 ----------

  /** Exclusive or, bit by bit: a bit is set where exactly one of the two has it set. */
  function Xor(a: nat, b: nat, bits: nat): (x: nat)
    ensures x < Pow2(bits)
  {
    if bits == 0 then 0 else 2 * Xor(a / 2, b / 2, bits - 1) + (a + b) % 2
  }

  function XorByte(a: Byte, b: Byte): Byte {
    assert Pow2(8) == 256;
    Xor(a, b, 8)
  }

  function XorBytes(s: seq<Byte>, b: Byte): (r: seq<Byte>)
    ensures |r| == |s|
  {
    seq(|s|, i requires 0 <= i < |s| => XorByte(s[i], b))
  }

  /** Both pads, on the letter k and on the zeros behind it. */
  lemma Pads()
    ensures XorByte(0x6B, 0x5C) == 0x37 && XorByte(0, 0x5C) == 0x5C
    ensures XorByte(0x6B, 0x36) == 0x5D && XorByte(0, 0x36) == 0x36
  {
    OuterPads();
    InnerPads();
  }

  lemma OuterPads()
    ensures Xor(0x6B, 0x5C, 8) == 0x37 && Xor(0, 0x5C, 8) == 0x5C
  {
    assert Xor(0, 0, 1) == 0;
    assert Xor(1, 1, 2) == 0;
    assert Xor(3, 2, 3) == 1;
    assert Xor(6, 5, 4) == 3;
    assert Xor(13, 11, 5) == 6;
    assert Xor(26, 23, 6) == 13;
    assert Xor(53, 46, 7) == 27;
    assert Xor(107, 92, 8) == 55;
    assert Xor(0, 0, 1) == 0;
    assert Xor(0, 1, 2) == 1;
    assert Xor(0, 2, 3) == 2;
    assert Xor(0, 5, 4) == 5;
    assert Xor(0, 11, 5) == 11;
    assert Xor(0, 23, 6) == 23;
    assert Xor(0, 46, 7) == 46;
    assert Xor(0, 92, 8) == 92;
  }

  lemma InnerPads()
    ensures Xor(0x6B, 0x36, 8) == 0x5D && Xor(0, 0x36, 8) == 0x36
  {
    assert Xor(0, 0, 1) == 0;
    assert Xor(1, 0, 2) == 1;
    assert Xor(3, 1, 3) == 2;
    assert Xor(6, 3, 4) == 5;
    assert Xor(13, 6, 5) == 11;
    assert Xor(26, 13, 6) == 23;
    assert Xor(53, 27, 7) == 46;
    assert Xor(107, 54, 8) == 93;
    assert Xor(0, 0, 1) == 0;
    assert Xor(0, 0, 2) == 0;
    assert Xor(0, 1, 3) == 1;
    assert Xor(0, 3, 4) == 3;
    assert Xor(0, 6, 5) == 6;
    assert Xor(0, 13, 6) == 13;
    assert Xor(0, 27, 7) == 27;
    assert Xor(0, 54, 8) == 54;
  }

  /** The key, hashed if it is longer than a block, with zeros up to a block. */
  function BlockKey<S>(f: (S, Block) -> S, start: S, output: S -> Digest, key: seq<Byte>): Block {
    var short := if |key| > BLOCK then HashWith(f, start, output, key) else key;
    short + ZeroBytes(BLOCK - |short|)
  }

  function HmacWith<S>(f: (S, Block) -> S, start: S, output: S -> Digest, key: seq<Byte>, text: seq<Byte>): Digest {
    var k := BlockKey(f, start, output, key);
    HashWith(f, start, output, XorBytes(k, 0x5C) + HashWith(f, start, output, XorBytes(k, 0x36) + text))
  }

  // ---------- What the counters hold ----------

  /** The first counter tells how much of a block is in the buffer. */
  lemma BufferedLength(n: nat)
    ensures n % MAX_UINT32 % 64 == n % BLOCK
  {
  }

  lemma Quotients(q: nat, r: nat, v: nat)
    requires r < MAX_UINT32 && v == q * MAX_UINT32 + r
    ensures v / MAX_UINT32 == q && v % MAX_UINT32 == r
  {
  }

  lemma Successor(n: nat)
    ensures (n + 1) % MAX_UINT32 == (n % MAX_UINT32 + 1) % MAX_UINT32
  {
  }

  /** The carry test: adding wraps exactly when the result is below what was added. */
  lemma CountMore(n: nat, m: nat)
    requires m < 0x8000_0000
    ensures (n + m) % MAX_UINT32 == (n % MAX_UINT32 + m) % MAX_UINT32
    ensures (n + m) / MAX_UINT32 % MAX_UINT32
         == if (n % MAX_UINT32 + m) % MAX_UINT32 < m
            then (n / MAX_UINT32 % MAX_UINT32 + 1) % MAX_UINT32
            else n / MAX_UINT32 % MAX_UINT32
  {
    var low, high := n % MAX_UINT32, n / MAX_UINT32;
    if low + m < MAX_UINT32 {
      Quotients(high, low + m, n + m);
    } else {
      Quotients(high + 1, low + m - MAX_UINT32, n + m);
      Successor(high);
    }
  }

  lemma Thirds(v: nat)
    ensures v / 256 / 256 == v / 0x1_0000 && v / 256 / 256 / 256 == v / 0x100_0000
  {
  }

  lemma FourBytes(v: nat)
    ensures BigEndian(v, 4) == [v / 0x100_0000 % 256, v / 0x1_0000 % 256, v / 0x100 % 256, v % 256]
  {
    Thirds(v);
    assert BigEndian(v, 4) == BigEndian(v / 256, 3) + [v % 256];
    assert BigEndian(v / 256, 3) == BigEndian(v / 256 / 256, 2) + [v / 256 % 256];
    assert BigEndian(v / 256 / 256, 2) == BigEndian(v / 256 / 256 / 256, 1) + [v / 256 / 256 % 256];
    assert BigEndian(v / 256 / 256 / 256, 1) == [v / 256 / 256 / 256 % 256];
  }

  lemma FourOfModulo(v: nat)
    ensures BigEndian(v % MAX_UINT32, 4) == BigEndian(v, 4)
  {
    var q, r := v / MAX_UINT32, v % MAX_UINT32;
    FourBytes(v);
    FourBytes(r);
    LowByte(v / 0x100_0000, r / 0x100_0000, q);
    LowByte(v / 0x1_0000, r / 0x1_0000, q * 0x100);
    LowByte(v / 0x100, r / 0x100, q * 0x1_0000);
    LowByte(v, r, q * 0x100_0000);
  }

  lemma LowByte(a: nat, b: nat, k: nat)
    requires a == 256 * k + b
    ensures a % 256 == b % 256
  {
  }

  lemma EightBytes(v: nat)
    ensures BigEndian(v, 8) == BigEndian(v / MAX_UINT32, 4) + BigEndian(v, 4)
  {
    var a := v / 256;
    var b := a / 256;
    var c := b / 256;
    assert c / 256 == v / MAX_UINT32;
    assert BigEndian(v, 8) == BigEndian(a, 7) + [v % 256];
    assert BigEndian(a, 7) == BigEndian(b, 6) + [a % 256];
    assert BigEndian(b, 6) == BigEndian(c, 5) + [b % 256];
    assert BigEndian(c, 5) == BigEndian(c / 256, 4) + [c % 256];
    FourBytes(v);
  }

  /** The two words made of the counters are the length in bits, modulo 2^64. */
  lemma LengthBytes(n: nat, high: nat, low: nat)
    requires high == n % MAX_UINT32 / 0x2000_0000 + n / MAX_UINT32 % MAX_UINT32 * 8 % MAX_UINT32
    requires low == n % MAX_UINT32 * 8 % MAX_UINT32
    ensures BigEndian(high, 4) + BigEndian(low, 4) == BigEndian(8 * n, 8)
  {
    LowWord(n);
    HighWord(n);
    FourOfModulo(8 * n);
    FourOfModulo(8 * n / MAX_UINT32);
    EightBytes(8 * n);
  }

  lemma LowWord(n: nat)
    ensures n % MAX_UINT32 * 8 % MAX_UINT32 == 8 * n % MAX_UINT32
  {
    var q, r := n / MAX_UINT32, n % MAX_UINT32;
    var c, e := r / 0x2000_0000, 8 * (r % 0x2000_0000);
    DivMod(c, MAX_UINT32, e);
    DivMod(8 * q + c, MAX_UINT32, e);
  }

  lemma HighWord(n: nat)
    ensures n % MAX_UINT32 / 0x2000_0000 + n / MAX_UINT32 % MAX_UINT32 * 8 % MAX_UINT32
         == 8 * n / MAX_UINT32 % MAX_UINT32
  {
    var q, r := n / MAX_UINT32, n % MAX_UINT32;
    var k := r / 0x2000_0000;
    assert 8 * n / MAX_UINT32 == 8 * q + k by { DivMod(8 * q + k, MAX_UINT32, 8 * r - k * MAX_UINT32); }
    var b := q % MAX_UINT32;
    var c, e := b / 0x2000_0000, 8 * (b % 0x2000_0000);
    assert 8 * b == c * MAX_UINT32 + e;
    DivMod(c, MAX_UINT32, e);
    DivMod(8 * (q / MAX_UINT32) + c, MAX_UINT32, e + k);
  }

  class Context<S> {
    const compress: (S, Block) -> S
    const start: S
    const output: S -> Digest
    var total0: nat
    var total1: nat
    var state: S
    const buffer: array<Byte>
    /** Everything put in since the start. */
    ghost var message: seq<Byte>

    /**
      The two counters hold the length, modulo 2^64; the state has absorbed the whole blocks of the
      message, and the rest of it lies in the buffer.
    */
    ghost predicate Valid()
      reads this, buffer
    {
      && Shaped() && Counted(|message|)
      && Holds(compress, start, message, state, buffer[..])
    }

    ghost predicate Shaped() {
      buffer.Length == BLOCK
    }

    ghost predicate Counted(n: nat)
      reads this`total0, this`total1
    {
      total0 == n % MAX_UINT32 && total1 == n / MAX_UINT32 % MAX_UINT32
    }

    constructor (compress: (S, Block) -> S, start: S, output: S -> Digest)
      ensures Valid() && message == [] && fresh(buffer)
      ensures this.compress == compress && this.start == start && this.output == output
    {
      this.compress, this.start, this.output := compress, start, output;
      total0, total1 := 0, 0;
      state := start;
      buffer := new Byte[BLOCK](i => 0);
      message := [];
    }

    method Starts()
      requires Shaped()
      modifies this
      ensures Valid() && message == []
    {
      total0, total1 := 0, 0;
      state := start;
      message := [];
    }

    /** Count some more bytes, with the carry from the first counter into the second. */
    method Count(ghost n: nat, ilen: nat)
      requires Counted(n) && ilen < 0x8000_0000
      modifies this`total0, this`total1
      ensures Counted(n + ilen)
    {
      CountMore(n, ilen);
      total0 := (total0 + ilen) % MAX_UINT32;
      if total0 < ilen {
        total1 := (total1 + 1) % MAX_UINT32;
      }
    }

    /** If there is a block begun in the buffer and the input completes it, process it. */
    method CompleteBlock(left: nat, input: seq<Byte>, ghost message: seq<Byte>)
        returns (rest: seq<Byte>, begun: nat, ghost taken: seq<Byte>)
      requires Shaped() && Holds(compress, start, message, state, buffer[..]) && left == |message| % BLOCK
      modifies this`state, buffer
      ensures Holds(compress, start, taken, state, buffer[..]) && taken + rest == message + input
      ensures begun == |taken| % BLOCK && (begun == 0 || begun + |rest| < BLOCK)
    {
      rest, begun, taken := input, left, message;
      var fill := 64 - left;
      if left != 0 && |input| >= fill {
        CopyIn(left, input[..fill]);
        assert buffer[..] == old(buffer[..])[..left] + input[..fill];
        FilledBlock(compress, start, message, state, old(buffer[..]), input[..fill], buffer[..]);
        state := compress(state, buffer[..]);
        rest, begun, taken := input[fill..], 0, message + input[..fill];
      }
    }

    /** Process the whole blocks of the input where they are. */
    method WholeBlocks(input: seq<Byte>, ghost message: seq<Byte>) returns (rest: seq<Byte>, ghost taken: seq<Byte>)
      requires Shaped() && Holds(compress, start, message, state, buffer[..])
      requires |message| % BLOCK == 0 || |message| % BLOCK + |input| < BLOCK
      modifies this`state
      ensures Holds(compress, start, taken, state, buffer[..]) && taken + rest == message + input
      ensures |taken| % BLOCK + |rest| < BLOCK && |taken| % BLOCK == |message| % BLOCK
    {
      rest, taken := input, message;
      while |rest| >= 64
        invariant Holds(compress, start, taken, state, buffer[..]) && taken + rest == message + input
        invariant |taken| % BLOCK == |message| % BLOCK && (|taken| % BLOCK == 0 || |taken| % BLOCK + |rest| < BLOCK)
        decreases |rest|
      {
        NextBlock(compress, start, taken, state, buffer[..], rest[..64]);
        state := compress(state, rest[..64]);
        assert taken + rest[..64] + rest[64..] == taken + rest;
        taken, rest := taken + rest[..64], rest[64..];
      }
    }

    /** Put in one more piece, of any length a C int can name. */
    method Update(input: seq<Byte>)
      requires Valid() && |input| < 0x8000_0000
      modifies this, buffer
      ensures Valid() && message == old(message) + input
    {
      if |input| == 0 {
        assert message + input == message;
        return;
      }
      var left := total0 % 64;
      BufferedLength(|message|);
      Count(|message|, |input|);
      var rest, begun;
      ghost var taken;
      rest, begun, taken := CompleteBlock(left, input, message);
      rest, taken := WholeBlocks(rest, taken);
      BufferRest(begun, rest, taken);
      message := message + input;
    }

    /** Keep what is left of the input, if anything, behind what the buffer already has. */
    method BufferRest(begun: nat, rest: seq<Byte>, ghost taken: seq<Byte>)
      requires Shaped() && Holds(compress, start, taken, state, buffer[..])
      requires begun == |taken| % BLOCK && begun + |rest| < BLOCK
      modifies buffer
      ensures Holds(compress, start, taken + rest, state, buffer[..])
    {
      if |rest| > 0 {
        CopyIn(begun, rest);
      }
      assert buffer[..] == old(buffer[..])[..begun] + rest + old(buffer[..])[begun + |rest|..];
      TailBuffered(compress, start, taken, state, old(buffer[..]), rest, buffer[..]);
    }

    method CopyIn(at: nat, bytes: seq<Byte>)
      requires at + |bytes| <= buffer.Length
      modifies buffer
      ensures buffer[..] == old(buffer[..])[..at] + bytes + old(buffer[..])[at + |bytes|..]
    {
      var i := 0;
      while i < |bytes|
        invariant 0 <= i <= |bytes|
        invariant forall k :: 0 <= k < buffer.Length ==>
          buffer[k] == if at <= k < at + i then bytes[k - at] else old(buffer[k])
      {
        buffer[at + i] := bytes[i];
        i := i + 1;
      }
    }

    /** The eight bytes of the length in bits, from the two counters. */
    method LengthField(ghost n: nat) returns (length: seq<Byte>)
      requires Counted(n)
      ensures length == BigEndian(8 * n, 8)
    {
      var high := total0 / 0x2000_0000 + total1 * 8 % MAX_UINT32;
      var low := total0 * 8 % MAX_UINT32;
      length := BigEndian(high, 4) + BigEndian(low, 4);
      LengthBytes(n, high, low);
    }

    /** Close the message with its padding and write out the state: the result is the hash of the message. */
    method Finish() returns (digest: Digest)
      requires Valid()
      modifies this, buffer
      ensures digest == HashWith(compress, start, output, old(message))
      ensures Valid() && message == old(message) + Padding(|old(message)|)
    {
      ghost var n := |message|;
      var length := LengthField(n);
      BufferedLength(n);
      var last := total0 % 64;
      var padn := if last < 56 then 56 - last else 120 - last;
      var padding := [0x80] + ZeroBytes(63);
      PaddingParts(n, padn);
      Update(padding[..padn]);
      Update(length);
      Behind(old(message), padding[..padn], length);
      WholeMessage(message);
      digest := output(state);
    }

    /** A fresh start, and the first piece. */
    method Begin(input: seq<Byte>)
      requires Shaped() && |input| < 0x8000_0000
      modifies this, buffer
      ensures Valid() && message == input
    {
      Starts();
      Update(input);
      assert message == input;
    }

    /** The last piece, and the end. */
    method FinishWith(input: seq<Byte>) returns (digest: Digest)
      requires Valid() && |input| < 0x8000_0000
      modifies this, buffer
      ensures digest == HashWith(compress, start, output, old(message) + input)
    {
      Update(input);
      digest := Finish();
    }

    /** A whole message at once. */
    method DigestOf(input: seq<Byte>) returns (digest: Digest)
      requires Shaped() && |input| < 0x8000_0000
      modifies this, buffer
      ensures digest == HashWith(compress, start, output, input)
    {
      Begin(input);
      digest := Finish();
    }

    /** Put in a number of pieces, one after the other. */
    method UpdateAll(parts: seq<seq<Byte>>)
      requires Valid() && forall p :: p in parts ==> |p| < 0x8000_0000
      modifies this, buffer
      ensures Valid() && message == old(message) + Concat(parts)
    {
      var i := 0;
      assert message == message + Concat(parts[..0]);
      while i < |parts|
        invariant 0 <= i <= |parts| && Valid() && message == old(message) + Concat(parts[..i])
      {
        Update(parts[i]);
        ConcatNext(parts, i);
        Behind(old(message), Concat(parts[..i]), parts[i]);
        i := i + 1;
      }
      assert parts[..i] == parts;
    }

    /** A message in pieces: however it is cut, the digest is the hash of the whole. */
    method DigestOfParts(parts: seq<seq<Byte>>) returns (digest: Digest)
      requires Shaped() && forall p :: p in parts ==> |p| < 0x8000_0000
      modifies this, buffer
      ensures digest == HashWith(compress, start, output, Concat(parts))
    {
      Starts();
      UpdateAll(parts);
      assert message == Concat(parts);
      digest := Finish();
    }
  }

  lemma ConcatNext(parts: seq<seq<Byte>>, i: nat)
    requires i < |parts|
    ensures Concat(parts[..i + 1]) == Concat(parts[..i]) + parts[i]
  {
    assert parts[..i + 1][..i] == parts[..i];
  }

  function Concat(parts: seq<seq<Byte>>): seq<Byte> {
    if parts == [] then [] else Concat(parts[..|parts| - 1]) + parts[|parts| - 1]
  }

  class HmacContext<S> {
    const ctx: Context<S>
    const ipad: array<Byte>
    const opad: array<Byte>
    ghost var key: seq<Byte>
    ghost var text: seq<Byte>

    ghost predicate Valid()
      reads this, ctx, ctx.buffer, ipad, opad
    {
      && Ready() && ctx.Valid() && Padded(BlockKey(ctx.compress, ctx.start, ctx.output, key))
      && ctx.message == ipad[..] + text
    }

    ghost predicate Padded(k: Block)
      reads ipad, opad
    {
      ipad[..] == XorBytes(k, 0x36) && opad[..] == XorBytes(k, 0x5C)
    }

    ghost predicate Ready()
    {
      && ctx.Shaped()
      && ipad.Length == BLOCK && opad.Length == BLOCK
      && ipad != opad && ipad != ctx.buffer && opad != ctx.buffer
    }

    constructor (ctx: Context<S>)
      requires ctx.Shaped()
      ensures Ready() && this.ctx == ctx && fresh(ipad) && fresh(opad)
    {
      this.ctx := ctx;
      ipad := new Byte[BLOCK](i => 0);
      opad := new Byte[BLOCK](i => 0);
    }

    method FillPads(key: seq<Byte>)
      requires Ready() && |key| < 0x8000_0000
      modifies ctx, ctx.buffer, ipad, opad
      ensures Padded(BlockKey(ctx.compress, ctx.start, ctx.output, key))
    {
      var short := key;
      if |key| > 64 {
        short := ctx.DigestOf(key);
      }
      FillPad(ipad, 0x36, short);
      FillPad(opad, 0x5C, short);
    }

    method Starts(key: seq<Byte>)
      requires Ready() && |key| < 0x8000_0000
      modifies this, ctx, ctx.buffer, ipad, opad
      ensures Valid() && this.key == key && text == []
    {
      FillPads(key);
      this.key := key;
      text := [];
      ctx.Begin(ipad[..]);
      assert ctx.message == ipad[..] + text;
    }

    method Update(input: seq<Byte>)
      requires Valid() && |input| < 0x8000_0000
      modifies this, ctx, ctx.buffer
      ensures Valid() && key == old(key) && text == old(text) + input
    {
      ctx.Update(input);
      text := text + input;
      assert ctx.message == ipad[..] + text;
    }

    method Finish() returns (digest: Digest)
      requires Valid()
      modifies this, ctx, ctx.buffer
      ensures digest == HmacWith(ctx.compress, ctx.start, ctx.output, old(key), old(text))
    {
      var inner := ctx.Finish();
      ctx.Begin(opad[..]);
      digest := ctx.FinishWith(inner);
    }
  
    method StartWith(key: seq<Byte>, input: seq<Byte>)
      requires Ready() && |key| < 0x8000_0000 && |input| < 0x8000_0000
      modifies this, ctx, ctx.buffer, ipad, opad
      ensures Valid() && this.key == key && text == input
    {
      Starts(key);
      Update(input);
    }

    /** Key and text at once. */
    method Of(key: seq<Byte>, input: seq<Byte>) returns (digest: Digest)
      requires Ready() && |key| < 0x8000_0000 && |input| < 0x8000_0000
      modifies this, ctx, ctx.buffer, ipad, opad
      ensures digest == HmacWith(ctx.compress, ctx.start, ctx.output, key, input)
    {
      StartWith(key, input);
      digest := Finish();
    }
  }

  /** A pad is one byte all over, with the key worked into its front. */
  method FillPad(pad: array<Byte>, b: Byte, key: seq<Byte>)
    requires pad.Length == BLOCK && |key| <= BLOCK
    modifies pad
    ensures pad[..] == XorBytes(key + ZeroBytes(BLOCK - |key|), b)
  {
    var i := 0;
    while i < pad.Length
      invariant 0 <= i <= pad.Length && forall k :: 0 <= k < i ==> pad[k] == b
    {
      pad[i] := b;
      i := i + 1;
    }
    i := 0;
    while i < |key|
      invariant 0 <= i <= |key|
      invariant forall k :: 0 <= k < i ==> pad[k] == XorByte(b, key[k])
      invariant forall k :: i <= k < pad.Length ==> pad[k] == b
    {
      pad[i] := XorByte(pad[i], key[i]);
      i := i + 1;
    }
    forall k | 0 <= k < BLOCK ensures pad[k] == XorBytes(key + ZeroBytes(BLOCK - |key|), b)[k] {
      if k < |key| { XorByteCommutes(b, key[k]); } else { XorByteZero(b); }
    }
  }

  lemma XorByteCommutes(a: Byte, b: Byte)
    ensures XorByte(a, b) == XorByte(b, a)
  {
    XorCommutes(a, b, 8);
  }

  lemma {:induction false} XorCommutes(a: nat, b: nat, bits: nat)
    ensures Xor(a, b, bits) == Xor(b, a, bits)
  {
    if bits > 0 { XorCommutes(a / 2, b / 2, bits - 1); }
  }

  lemma XorByteZero(a: Byte)
    ensures XorByte(0, a) == a
  {
    assert Pow2(8) == 256;
    XorZero(a, 8);
  }

  lemma {:induction false} XorZero(a: nat, bits: nat)
    requires a < Pow2(bits)
    ensures Xor(0, a, bits) == a
  {
    if bits > 0 { XorZero(a / 2, bits - 1); }
  }
}
