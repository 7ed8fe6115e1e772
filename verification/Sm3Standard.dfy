/**
  The SM3 hash as GB/T 32905-2016 defines it.  The operations on words are a parameter: the code is
  proved to apply them as the standard does, whatever they are, and module Sm3 fills them in.
*/
module Sm3Standard {
  import opened Bytes
  import opened BlockHash

  /** Operations on the 32-bit words of section 3, the constants of section 4.2, and words from and to bytes. */
  datatype Ops<!Word> = Ops(
    xor: (Word, Word) -> Word, and: (Word, Word) -> Word, or: (Word, Word) -> Word, not: Word -> Word,
    add: (Word, Word) -> Word, rotl: (Word, nat) -> Word, early: Word, late: Word,
    fromBytes: (Byte, Byte, Byte, Byte) -> Word)

  datatype State<Word> = State(a: Word, b: Word, c: Word, d: Word, e: Word, f: Word, g: Word, h: Word)

  // ---------- Section 4: constants and functions ----------

  function T<Word>(o: Ops<Word>, j: nat): Word {
    if j < 16 then o.early else o.late
  }

  function FF<Word>(o: Ops<Word>, j: nat, x: Word, y: Word, z: Word): Word {
    if j < 16 then o.xor(o.xor(x, y), z) else o.or(o.or(o.and(x, y), o.and(x, z)), o.and(y, z))
  }

  function GG<Word>(o: Ops<Word>, j: nat, x: Word, y: Word, z: Word): Word {
    if j < 16 then o.xor(o.xor(x, y), z) else o.or(o.and(x, y), o.and(o.not(x), z))
  }

  function P0<Word>(o: Ops<Word>, x: Word): Word {
    o.xor(o.xor(x, o.rotl(x, 9)), o.rotl(x, 17))
  }

  function P1<Word>(o: Ops<Word>, x: Word): Word {
    o.xor(o.xor(x, o.rotl(x, 15)), o.rotl(x, 23))
  }

  // ---------- Section 5.3: compression ----------

  /** Section 5.3.2: the words W of the expanded message. */
  function W<Word>(o: Ops<Word>, block: Block, j: nat): Word {
    if j < 16 then o.fromBytes(block[4 * j], block[4 * j + 1], block[4 * j + 2], block[4 * j + 3])
    else
      var mixed := P1(o, o.xor(o.xor(W(o, block, j - 16), W(o, block, j - 9)), o.rotl(W(o, block, j - 3), 15)));
      o.xor(o.xor(mixed, o.rotl(W(o, block, j - 13), 7)), W(o, block, j - 6))
  }

  function W1<Word>(o: Ops<Word>, block: Block, j: nat): Word {
    o.xor(W(o, block, j), W(o, block, j + 4))
  }

  /** Section 5.3.3: one round. */
  function Round<Word>(o: Ops<Word>, j: nat, s: State<Word>, w: Word, w1: Word): State<Word> {
    var ss1 := o.rotl(o.add(o.add(o.rotl(s.a, 12), s.e), o.rotl(T(o, j), j)), 7);
    var ss2 := o.xor(ss1, o.rotl(s.a, 12));
    var tt1 := o.add(o.add(o.add(FF(o, j, s.a, s.b, s.c), s.d), ss2), w1);
    var tt2 := o.add(o.add(o.add(GG(o, j, s.e, s.f, s.g), s.h), ss1), w);
    State(tt1, s.a, o.rotl(s.b, 9), s.c, P0(o, tt2), s.e, o.rotl(s.f, 19), s.g)
  }

  function Rounds<Word>(o: Ops<Word>, block: Block, n: nat, s: State<Word>): State<Word> {
    if n == 0 then s
    else Round(o, n - 1, Rounds(o, block, n - 1, s), W(o, block, n - 1), W1(o, block, n - 1))
  }

  function XorState<Word>(o: Ops<Word>, s: State<Word>, t: State<Word>): State<Word> {
    State(o.xor(s.a, t.a), o.xor(s.b, t.b), o.xor(s.c, t.c), o.xor(s.d, t.d),
          o.xor(s.e, t.e), o.xor(s.f, t.f), o.xor(s.g, t.g), o.xor(s.h, t.h))
  }

  function Compress<Word>(o: Ops<Word>, s: State<Word>, block: Block): State<Word> {
    XorState(o, Rounds(o, block, |block|, s), s)
  }
}
