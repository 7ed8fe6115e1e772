/** The SM3 code: the compression of one block, and the hash and HMAC made of it. */
module Sm3 {
  import opened Bytes
  import opened BlockHash
  import opened Sm3Standard

  // ---------- Compression of one block ----------

  function Words<Word>(o: Ops<Word>, data: Block): (e: seq<Word>)
    ensures |e| == 68
  {
    seq(68, j requires 0 <= j < 68 => W(o, data, j))
  }

  /** What a later word has to be, with its parts grouped as the code groups them. */
  ghost predicate Follows<Word>(o: Ops<Word>, e: seq<Word>, j: nat)
    requires 16 <= j < 68 == |e|
  {
    e[j] == o.xor(P1(o, o.xor(o.xor(e[j - 16], e[j - 9]), o.rotl(e[j - 3], 15))), o.xor(o.rotl(e[j - 13], 7), e[j - 6]))
  }

  lemma WordFollows<Word(!new)>(o: Ops<Word>, data: Block, j: nat)
    requires XorAssociative(o) && 16 <= j < 68
    ensures Follows(o, Words(o, data), j)
  {
    var mixed := P1(o, o.xor(o.xor(W(o, data, j - 16), W(o, data, j - 9)), o.rotl(W(o, data, j - 3), 15)));
    var y, z := o.rotl(W(o, data, j - 13), 7), W(o, data, j - 6);
    assert o.xor(mixed, o.xor(y, z)) == o.xor(o.xor(mixed, y), z);
  }

  lemma WordsFollow<Word(!new)>(o: Ops<Word>, data: Block)
    requires XorAssociative(o)
    ensures forall j :: 16 <= j < 68 ==> Follows(o, Words(o, data), j)
  {
    forall j | 16 <= j < 68 ensures Follows(o, Words(o, data), j) {
      WordFollows(o, data, j);
    }
  }

  method LoadWords<Word>(o: Ops<Word>, data: Block, w: array<Word>)
    requires w.Length == 68
    modifies w
    ensures w[..16] == Words(o, data)[..16]
  {
    var j := 0;
    while j < 16
      invariant 0 <= j <= 16 && forall i :: 0 <= i < j ==> w[i] == W(o, data, i)
    {
      w[j] := o.fromBytes(data[4 * j], data[4 * j + 1], data[4 * j + 2], data[4 * j + 3]);
      j := j + 1;
    }
  }

  method ExtendWords<Word>(o: Ops<Word>, w: array<Word>, ghost e: seq<Word>)
    requires w.Length == 68 == |e| && w[..16] == e[..16] && forall j :: 16 <= j < 68 ==> Follows(o, e, j)
    modifies w
    ensures w[..] == e
  {
    var j := 16;
    while j < 68
      invariant 16 <= j <= 68 && w[..j] == e[..j]
    {
      var temp1 := o.xor(w[j - 16], w[j - 9]);
      var temp2 := o.rotl(w[j - 3], 15);
      var temp3 := o.xor(temp1, temp2);
      var temp4 := P1(o, temp3);
      var temp5 := o.xor(o.rotl(w[j - 13], 7), w[j - 6]);
      assert w[j - 16] == w[..j][j - 16] && w[j - 9] == w[..j][j - 9] && w[j - 3] == w[..j][j - 3]
        && w[j - 13] == w[..j][j - 13] && w[j - 6] == w[..j][j - 6];
      assert Follows(o, e, j);
      w[j] := o.xor(temp4, temp5);
      assert e[..j + 1] == e[..j] + [e[j]];
      j := j + 1;
    }
  }

  method CombineWords<Word(0)>(o: Ops<Word>, w: array<Word>) returns (w1: array<Word>)
    requires w.Length == 68
    ensures w1.Length == 64 && forall j :: 0 <= j < 64 ==> w1[j] == o.xor(w[j], w[j + 4])
  {
    w1 := new Word[64];
    var j := 0;
    while j < 64
      invariant 0 <= j <= 64 && forall i :: 0 <= i < j ==> w1[i] == o.xor(w[i], w[i + 4])
      invariant w[..] == old(w[..])
    {
      w1[j] := o.xor(w[j], w[j + 4]);
      j := j + 1;
    }
  }

  /** The sixty-eight words W and the sixty-four words W1 of a block. */
  method Expand<Word(0, !new)>(o: Ops<Word>, data: Block) returns (w: array<Word>, w1: array<Word>)
    requires XorAssociative(o)
    ensures w.Length == 68 && forall j :: 0 <= j < 68 ==> w[j] == W(o, data, j)
    ensures w1.Length == 64 && forall j :: 0 <= j < 64 ==> w1[j] == W1(o, data, j)
  {
    w := new Word[68];
    LoadWords(o, data, w);
    WordsFollow(o, data);
    ExtendWords(o, w, Words(o, data));
    w1 := CombineWords(o, w);
    forall j | 0 <= j < 68 ensures w[j] == W(o, data, j) { assert w[..][j] == Words(o, data)[j]; }
  }

  ghost predicate XorAssociative<Word(!new)>(o: Ops<Word>) {
    forall x, y, z :: o.xor(x, o.xor(y, z)) == o.xor(o.xor(x, y), z)
  }

  /** The compression of one block: both loops over the rounds, the registers changed one after the other. */
  method Process<Word(0, !new)>(o: Ops<Word>, s: State<Word>, data: Block) returns (r: State<Word>)
    requires XorAssociative(o)
    ensures r == Compress(o, s, data)
  {
    var w, w1 := Expand(o, data);
    var a, b, c, d, e, f, g, h := s.a, s.b, s.c, s.d, s.e, s.f, s.g, s.h;
    var j := 0;
    while j < 16
      invariant 0 <= j <= 16 && State(a, b, c, d, e, f, g, h) == Rounds(o, data, j, s)
    {
      var ss1 := o.rotl(o.add(o.add(o.rotl(a, 12), e), o.rotl(o.early, j)), 7);
      var ss2 := o.xor(ss1, o.rotl(a, 12));
      var tt1 := o.add(o.add(o.add(o.xor(o.xor(a, b), c), d), ss2), w1[j]);
      var tt2 := o.add(o.add(o.add(o.xor(o.xor(e, f), g), h), ss1), w[j]);
      d := c;
      c := o.rotl(b, 9);
      b := a;
      a := tt1;
      h := g;
      g := o.rotl(f, 19);
      f := e;
      e := P0(o, tt2);
      j := j + 1;
    }
    while j < 64
      invariant 16 <= j <= 64 && State(a, b, c, d, e, f, g, h) == Rounds(o, data, j, s)
    {
      var ss1 := o.rotl(o.add(o.add(o.rotl(a, 12), e), o.rotl(o.late, j)), 7);
      var ss2 := o.xor(ss1, o.rotl(a, 12));
      var tt1 := o.add(o.add(o.add(o.or(o.or(o.and(a, b), o.and(a, c)), o.and(b, c)), d), ss2), w1[j]);
      var tt2 := o.add(o.add(o.add(o.or(o.and(e, f), o.and(o.not(e), g)), h), ss1), w[j]);
      d := c;
      c := o.rotl(b, 9);
      b := a;
      a := tt1;
      h := g;
      g := o.rotl(f, 19);
      f := e;
      e := P0(o, tt2);
      j := j + 1;
    }
    r := XorState(o, State(a, b, c, d, e, f, g, h), s);
  }

  // ---------- The 32-bit words ----------

  function ShiftLeft(x: bv32, n: nat): bv32
    requires n < 32
  {
    x << n
  }

  function ShiftRight(x: bv32, n: nat): bv32
    requires n < 32
  {
    x >> n
  }

  /** Rotation to the left, by any amount. */
  function Rotl(x: bv32, n: nat): bv32 {
    var k := n % 32;
    if k == 0 then x else OrWords(ShiftLeft(x, k), ShiftRight(x, 32 - k))
  }

  /** Four bytes as a big-endian word. */
  function WordOf(b0: Byte, b1: Byte, b2: Byte, b3: Byte): bv32 {
    ((b0 as bv32) << 24) | ((b1 as bv32) << 16) | ((b2 as bv32) << 8) | (b3 as bv32)
  }

  function XorWords(x: bv32, y: bv32): bv32 { x ^ y }
  function AndWords(x: bv32, y: bv32): bv32 { x & y }
  function OrWords(x: bv32, y: bv32): bv32 { x | y }
  function NotWord(x: bv32): bv32 { !x }
  function AddWords(x: bv32, y: bv32): bv32 { x + y }

  const WORDS: Ops<bv32> := Ops(XorWords, AndWords, OrWords, NotWord, AddWords, Rotl, 0x79CC4519, 0x7A879D8A, WordOf)

  const IV: State<bv32> :=
    State(0x7380166F, 0x4914B2B9, 0x172442D7, 0xDA8A0600, 0xA96F30BC, 0x163138AA, 0xE38DEE4D, 0xB0FB0E4E)

  lemma XorWordsAssociative(x: bv32, y: bv32, z: bv32)
    ensures XorWords(x, XorWords(y, z)) == XorWords(XorWords(x, y), z)
  {
    assert x ^ (y ^ z) == (x ^ y) ^ z;
  }

  lemma WordsXorAssociative()
    ensures XorAssociative(WORDS)
  {
    hide XorWords;
    forall x, y, z ensures WORDS.xor(x, WORDS.xor(y, z)) == WORDS.xor(WORDS.xor(x, y), z) {
      XorWordsAssociative(x, y, z);
    }
  }

  function WordBytes(w: bv32): (s: seq<Byte>)
    ensures |s| == 4
  {
    [((w >> 24) & 0xFF) as int, ((w >> 16) & 0xFF) as int, ((w >> 8) & 0xFF) as int, (w & 0xFF) as int]
  }

  function FourWords(a: bv32, b: bv32, c: bv32, d: bv32): (r: seq<Byte>)
    ensures |r| == 16
  {
    WordBytes(a) + WordBytes(b) + WordBytes(c) + WordBytes(d)
  }

  function StateBytes(s: State<bv32>): Digest {
    FourWords(s.a, s.b, s.c, s.d) + FourWords(s.e, s.f, s.g, s.h)
  }

  // ---------- The hash and HMAC ----------

  const COMPRESS: (State<bv32>, Block) -> State<bv32> := (s: State<bv32>, block: Block) => Compress(WORDS, s, block)

  /** On 32-bit words the code computes the compression the contexts below are given. */
  method ProcessBlock(s: State<bv32>, data: Block) returns (r: State<bv32>)
    ensures r == COMPRESS(s, data)
  {
    WordsXorAssociative();
    r := Process(WORDS, s, data);
  }

  /** The hash of sections 5.2 and 5.3 of GB/T 32905-2016. */
  function Hash(message: seq<Byte>): Digest {
    HashWith(COMPRESS, IV, StateBytes, message)
  }

  function Hmac(key: seq<Byte>, text: seq<Byte>): Digest {
    HmacWith(COMPRESS, IV, StateBytes, key, text)
  }

  method Crypto(parts: seq<seq<Byte>>) returns (digest: seq<Byte>)
    requires forall p :: p in parts ==> |p| < 0x8000_0000
    ensures digest == Hash(Concat(parts))
  {
    var ctx := new Context(COMPRESS, IV, StateBytes);
    digest := ctx.DigestOfParts(parts);
  }

  method HmacCrypto(key: seq<Byte>, input: seq<Byte>) returns (digest: seq<Byte>)
    requires |key| < 0x8000_0000 && |input| < 0x8000_0000
    ensures digest == Hmac(key, input)
  {
    var ctx := new Context(COMPRESS, IV, StateBytes);
    var h := new HmacContext(ctx);
    digest := h.Of(key, input);
  }

  /** A key longer than a block stands for its digest. */
  lemma HmacLongKey(key: seq<Byte>, text: seq<Byte>)
    requires |key| > 64
    ensures Hmac(key, text) == Hmac(Hash(key), text)
  {
    hide HashWith;
  }

  /** The two pads: with the key of the one byte "k", 0x36 and 0x5C alone fill the rest of their blocks. */
  lemma HmacPads(text: seq<Byte>)
    ensures Hmac([0x6B], text) == Hash([0x37] + seq(63, i => 0x5C) + Hash([0x5D] + seq(63, i => 0x36) + text))
  {
    hide HashWith;
    var k: seq<Byte> := [0x6B] + ZeroBytes(63);
    Pads();
    assert BlockKey(COMPRESS, IV, StateBytes, [0x6B]) == k;
    assert XorBytes(k, 0x5C) == [0x37] + seq(63, i => 0x5C);
    assert XorBytes(k, 0x36) == [0x5D] + seq(63, i => 0x36);
  }
}
