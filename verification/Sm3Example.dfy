/**
  The example of appendix A.1 of GB/T 32905-2016: the digest of "abc", word by word and round by
  round.  It fixes every constant, rotation and byte order of module Sm3 at once.
*/
module Sm3Example {
  import opened Bytes
  import opened BlockHash
  import opened Sm3
  import opened Sm3Standard
  import opened Sm3Words

  // ---------- The operations with their literal amounts ----------

  function Rotl7(x: bv32): bv32 { (x << 7) | (x >> 25) }
  function Rotl9(x: bv32): bv32 { (x << 9) | (x >> 23) }
  function Rotl12(x: bv32): bv32 { (x << 12) | (x >> 20) }
  function Rotl15(x: bv32): bv32 { (x << 15) | (x >> 17) }
  function Rotl17(x: bv32): bv32 { (x << 17) | (x >> 15) }
  function Rotl19(x: bv32): bv32 { (x << 19) | (x >> 13) }
  function Rotl23(x: bv32): bv32 { (x << 23) | (x >> 9) }

  lemma Is7(x: bv32)
    ensures Rotl(x, 7) == Rotl7(x)
  {
    hide Rotl;
    RotlBy(x, 7, 7);
  }

  lemma Is9(x: bv32)
    ensures Rotl(x, 9) == Rotl9(x)
  {
    hide Rotl;
    RotlBy(x, 9, 9);
  }

  lemma Is12(x: bv32)
    ensures Rotl(x, 12) == Rotl12(x)
  {
    hide Rotl;
    RotlBy(x, 12, 12);
  }

  lemma Is15(x: bv32)
    ensures Rotl(x, 15) == Rotl15(x)
  {
    hide Rotl;
    RotlBy(x, 15, 15);
  }

  lemma Is17(x: bv32)
    ensures Rotl(x, 17) == Rotl17(x)
  {
    hide Rotl;
    RotlBy(x, 17, 17);
  }

  lemma Is19(x: bv32)
    ensures Rotl(x, 19) == Rotl19(x)
  {
    hide Rotl;
    RotlBy(x, 19, 19);
  }

  lemma Is23(x: bv32)
    ensures Rotl(x, 23) == Rotl23(x)
  {
    hide Rotl;
    RotlBy(x, 23, 23);
  }

  function NextWord(a: bv32, b: bv32, c: bv32, d: bv32, e: bv32): bv32 {
    var x := XorWords(XorWords(a, b), Rotl15(c));
    XorWords(XorWords(XorWords(XorWords(x, Rotl15(x)), Rotl23(x)), Rotl7(d)), e)
  }

  lemma WordIs(block: Block, j: nat)
    requires 16 <= j < 68
    ensures W(WORDS, block, j)
         == NextWord(W(WORDS, block, j - 16), W(WORDS, block, j - 9), W(WORDS, block, j - 3),
                     W(WORDS, block, j - 13), W(WORDS, block, j - 6))
  {
    hide Rotl, Rotl7, Rotl9, Rotl12, Rotl15, Rotl17, Rotl19, Rotl23, XorWords;
    var x := XorWords(XorWords(W(WORDS, block, j - 16), W(WORDS, block, j - 9)), Rotl(W(WORDS, block, j - 3), 15));
    Is15(W(WORDS, block, j - 3));
    Is7(W(WORDS, block, j - 13));
    Is15(x);
    Is23(x);
  }

  function MixedRound(s: State<bv32>, t: bv32, ff: bv32, gg: bv32, w: bv32, v: bv32): State<bv32> {
    var ss1 := Rotl7(AddWords(AddWords(Rotl12(s.a), s.e), t));
    var tt1 := AddWords(AddWords(AddWords(ff, s.d), XorWords(ss1, Rotl12(s.a))), XorWords(w, v));
    var tt2 := AddWords(AddWords(AddWords(gg, s.h), ss1), w);
    State(tt1, s.a, Rotl9(s.b), s.c, XorWords(XorWords(tt2, Rotl9(tt2)), Rotl17(tt2)), s.e, Rotl19(s.f), s.g)
  }

  /** A round among the first sixteen, and a later one. */
  function EarlyRound(s: State<bv32>, t: bv32, w: bv32, v: bv32): State<bv32> {
    MixedRound(s, t, XorWords(XorWords(s.a, s.b), s.c), XorWords(XorWords(s.e, s.f), s.g), w, v)
  }

  function LateRound(s: State<bv32>, t: bv32, w: bv32, v: bv32): State<bv32> {
    MixedRound(s, t, OrWords(OrWords(AndWords(s.a, s.b), AndWords(s.a, s.c)), AndWords(s.b, s.c)),
               OrWords(AndWords(s.e, s.f), AndWords(NotWord(s.e), s.g)), w, v)
  }

  lemma RoundIs(j: nat, s: State<bv32>, w: bv32, v: bv32)
    ensures Round(WORDS, j, s, w, XorWords(w, v))
         == if j < 16 then EarlyRound(s, Rotl(0x79CC4519, j), w, v) else LateRound(s, Rotl(0x7A879D8A, j), w, v)
  {
    hide Rotl, Rotl7, Rotl9, Rotl12, Rotl15, Rotl17, Rotl19, Rotl23, XorWords, AndWords, OrWords, NotWord, AddWords;
    var t := Rotl(T(WORDS, j), j);
    var ss1 := Rotl(AddWords(AddWords(Rotl(s.a, 12), s.e), t), 7);
    var tt2 := AddWords(AddWords(AddWords(GG(WORDS, j, s.e, s.f, s.g), s.h), ss1), w);
    Is12(s.a);
    Is9(s.b);
    Is19(s.f);
    Is9(tt2);
    Is17(tt2);
    Is7(AddWords(AddWords(Rotl(s.a, 12), s.e), t));
  }

  /** The state after one more round. */
  lemma RoundsMore(block: Block, n: nat, s: State<bv32>)
    ensures var t, w, v := Rotl(T(WORDS, n), n), W(WORDS, block, n), W(WORDS, block, n + 4);
      Rounds(WORDS, block, n + 1, s)
      == if n < 16 then EarlyRound(Rounds(WORDS, block, n, s), t, w, v)
         else LateRound(Rounds(WORDS, block, n, s), t, w, v)
  {
    hide Rotl, Round, W, EarlyRound, LateRound, XorWords;
    RoundIs(n, Rounds(WORDS, block, n, s), W(WORDS, block, n), W(WORDS, block, n + 4));
  }

  // ---------- The block of "abc" and its expanded words ----------

  const ABC: Block := [0x61, 0x62, 0x63, 0x80] + ZeroBytes(59) + [24]

  lemma Literals()
    ensures WordOf(0x61, 0x62, 0x63, 0x80) == 0x61626380 && WordOf(0, 0, 0, 0) == 0 && WordOf(0, 0, 0, 24) == 24
  {
  }

  lemma FirstWords()
    ensures W(WORDS, ABC, 0) == 0x61626380 && W(WORDS, ABC, 15) == 0x00000018
    ensures W(WORDS, ABC, 1) == W(WORDS, ABC, 2) == W(WORDS, ABC, 3) == W(WORDS, ABC, 4) == 0
    ensures W(WORDS, ABC, 5) == W(WORDS, ABC, 6) == W(WORDS, ABC, 7) == W(WORDS, ABC, 8) == 0
    ensures W(WORDS, ABC, 9) == W(WORDS, ABC, 10) == W(WORDS, ABC, 11) == 0
    ensures W(WORDS, ABC, 12) == W(WORDS, ABC, 13) == W(WORDS, ABC, 14) == 0
  {
    Literals();
    hide WordOf;
  }

  lemma WordsTo24()
    ensures W(WORDS, ABC, 16) == 0x9092E200 && W(WORDS, ABC, 17) == 0x00000000
    ensures W(WORDS, ABC, 18) == 0x000C0606 && W(WORDS, ABC, 19) == 0x719C70ED
    ensures W(WORDS, ABC, 20) == 0x00000000 && W(WORDS, ABC, 21) == 0x8001801F
    ensures W(WORDS, ABC, 22) == 0x939F7DA9 && W(WORDS, ABC, 23) == 0x00000000
  {
    hide W;
    FirstWords();
    WordIs(ABC, 16); WordIs(ABC, 17); WordIs(ABC, 18); WordIs(ABC, 19); WordIs(ABC, 20);
    WordIs(ABC, 21); WordIs(ABC, 22); WordIs(ABC, 23);
  }

  lemma WordsTo32()
    ensures W(WORDS, ABC, 24) == 0x2C6FA1F9 && W(WORDS, ABC, 25) == 0xADAAEF14
    ensures W(WORDS, ABC, 26) == 0x00000000 && W(WORDS, ABC, 27) == 0x0001801E
    ensures W(WORDS, ABC, 28) == 0x9A965F89 && W(WORDS, ABC, 29) == 0x49710048
    ensures W(WORDS, ABC, 30) == 0x23CE86A1 && W(WORDS, ABC, 31) == 0xB2D12F1B
  {
    hide W;
    FirstWords();
    WordsTo24();
    WordIs(ABC, 24); WordIs(ABC, 25); WordIs(ABC, 26); WordIs(ABC, 27); WordIs(ABC, 28);
    WordIs(ABC, 29); WordIs(ABC, 30); WordIs(ABC, 31);
  }

  lemma WordsTo42()
    ensures W(WORDS, ABC, 32) == 0xE1DAE338 && W(WORDS, ABC, 33) == 0xF8061807
    ensures W(WORDS, ABC, 34) == 0x055D68BE && W(WORDS, ABC, 35) == 0x86CFD481
    ensures W(WORDS, ABC, 36) == 0x1F447D83 && W(WORDS, ABC, 37) == 0xD9023DBF
    ensures W(WORDS, ABC, 38) == 0x185898E0 && W(WORDS, ABC, 39) == 0xE0061807
    ensures W(WORDS, ABC, 40) == 0x050DF55C && W(WORDS, ABC, 41) == 0xCDE0104C
  {
    hide W;
    FirstWords();
    WordsTo24();
    WordsTo32();
    WordIs(ABC, 32); WordIs(ABC, 33); WordIs(ABC, 34); WordIs(ABC, 35); WordIs(ABC, 36);
    WordIs(ABC, 37); WordIs(ABC, 38); WordIs(ABC, 39); WordIs(ABC, 40); WordIs(ABC, 41);
  }

  lemma WordsTo55()
    ensures W(WORDS, ABC, 42) == 0xA5B9C955 && W(WORDS, ABC, 43) == 0xA7DF0184
    ensures W(WORDS, ABC, 44) == 0x6E46CD08 && W(WORDS, ABC, 45) == 0xE3BABDF8
    ensures W(WORDS, ABC, 46) == 0x70CAA422 && W(WORDS, ABC, 47) == 0x0353AF50
    ensures W(WORDS, ABC, 48) == 0xA92DBCA1 && W(WORDS, ABC, 49) == 0x5F33CFD2
    ensures W(WORDS, ABC, 50) == 0xE16F6E89 && W(WORDS, ABC, 51) == 0xF70FE941
    ensures W(WORDS, ABC, 52) == 0xCA5462DC && W(WORDS, ABC, 53) == 0x85A90152
    ensures W(WORDS, ABC, 54) == 0x76AF6296
  {
    hide W;
    FirstWords();
    WordsTo24();
    WordsTo32();
    WordsTo42();
    WordIs(ABC, 42); WordIs(ABC, 43); WordIs(ABC, 44); WordIs(ABC, 45); WordIs(ABC, 46);
    WordIs(ABC, 47); WordIs(ABC, 48); WordIs(ABC, 49); WordIs(ABC, 50); WordIs(ABC, 51);
    WordIs(ABC, 52); WordIs(ABC, 53); WordIs(ABC, 54);
  }

  lemma WordsTo68()
    ensures W(WORDS, ABC, 55) == 0xC922BDB2 && W(WORDS, ABC, 56) == 0x68378CF5
    ensures W(WORDS, ABC, 57) == 0x97585344 && W(WORDS, ABC, 58) == 0x09008723
    ensures W(WORDS, ABC, 59) == 0x86FAEE74 && W(WORDS, ABC, 60) == 0x2AB908B0
    ensures W(WORDS, ABC, 61) == 0x4A64BC50 && W(WORDS, ABC, 62) == 0x864E6E08
    ensures W(WORDS, ABC, 63) == 0xF07E6590 && W(WORDS, ABC, 64) == 0x325C8F78
    ensures W(WORDS, ABC, 65) == 0xACCB8011 && W(WORDS, ABC, 66) == 0xE11DB9DD
    ensures W(WORDS, ABC, 67) == 0xB99C0545
  {
    hide W;
    FirstWords();
    WordsTo24();
    WordsTo32();
    WordsTo42();
    WordsTo55();
    WordIs(ABC, 55); WordIs(ABC, 56); WordIs(ABC, 57); WordIs(ABC, 58); WordIs(ABC, 59);
    WordIs(ABC, 60); WordIs(ABC, 61); WordIs(ABC, 62); WordIs(ABC, 63); WordIs(ABC, 64);
    WordIs(ABC, 65); WordIs(ABC, 66); WordIs(ABC, 67);
  }

  // ---------- The rounds, as the appendix lists them ----------

  lemma TurnsTo8()
    ensures Rotl(0x79CC4519, 0) == 0x79CC4519 && Rotl(0x79CC4519, 1) == 0xF3988A32
    ensures Rotl(0x79CC4519, 2) == 0xE7311465 && Rotl(0x79CC4519, 3) == 0xCE6228CB
    ensures Rotl(0x79CC4519, 4) == 0x9CC45197 && Rotl(0x79CC4519, 5) == 0x3988A32F
    ensures Rotl(0x79CC4519, 6) == 0x7311465E && Rotl(0x79CC4519, 7) == 0xE6228CBC
  {
    hide Rotl;
    NoRotation(0x79CC4519, 0);
    RotlBy(0x79CC4519, 1, 1); RotlBy(0x79CC4519, 2, 2); RotlBy(0x79CC4519, 3, 3);
    RotlBy(0x79CC4519, 4, 4); RotlBy(0x79CC4519, 5, 5); RotlBy(0x79CC4519, 6, 6); RotlBy(0x79CC4519, 7, 7);
  }

  lemma TurnsTo16()
    ensures Rotl(0x79CC4519, 8) == 0xCC451979 && Rotl(0x79CC4519, 9) == 0x988A32F3
    ensures Rotl(0x79CC4519, 10) == 0x311465E7 && Rotl(0x79CC4519, 11) == 0x6228CBCE
    ensures Rotl(0x79CC4519, 12) == 0xC451979C && Rotl(0x79CC4519, 13) == 0x88A32F39
    ensures Rotl(0x79CC4519, 14) == 0x11465E73 && Rotl(0x79CC4519, 15) == 0x228CBCE6
  {
    hide Rotl;
    RotlBy(0x79CC4519, 8, 8); RotlBy(0x79CC4519, 9, 9); RotlBy(0x79CC4519, 10, 10); RotlBy(0x79CC4519, 11, 11);
    RotlBy(0x79CC4519, 12, 12); RotlBy(0x79CC4519, 13, 13); RotlBy(0x79CC4519, 14, 14); RotlBy(0x79CC4519, 15, 15);
  }

  lemma TurnsTo24()
    ensures Rotl(0x7A879D8A, 16) == 0x9D8A7A87 && Rotl(0x7A879D8A, 17) == 0x3B14F50F
    ensures Rotl(0x7A879D8A, 18) == 0x7629EA1E && Rotl(0x7A879D8A, 19) == 0xEC53D43C
    ensures Rotl(0x7A879D8A, 20) == 0xD8A7A879 && Rotl(0x7A879D8A, 21) == 0xB14F50F3
    ensures Rotl(0x7A879D8A, 22) == 0x629EA1E7 && Rotl(0x7A879D8A, 23) == 0xC53D43CE
  {
    hide Rotl;
    RotlBy(0x7A879D8A, 16, 16); RotlBy(0x7A879D8A, 17, 17); RotlBy(0x7A879D8A, 18, 18); RotlBy(0x7A879D8A, 19, 19);
    RotlBy(0x7A879D8A, 20, 20); RotlBy(0x7A879D8A, 21, 21); RotlBy(0x7A879D8A, 22, 22); RotlBy(0x7A879D8A, 23, 23);
  }

  lemma TurnsTo32()
    ensures Rotl(0x7A879D8A, 24) == 0x8A7A879D && Rotl(0x7A879D8A, 25) == 0x14F50F3B
    ensures Rotl(0x7A879D8A, 26) == 0x29EA1E76 && Rotl(0x7A879D8A, 27) == 0x53D43CEC
    ensures Rotl(0x7A879D8A, 28) == 0xA7A879D8 && Rotl(0x7A879D8A, 29) == 0x4F50F3B1
    ensures Rotl(0x7A879D8A, 30) == 0x9EA1E762 && Rotl(0x7A879D8A, 31) == 0x3D43CEC5
  {
    hide Rotl;
    RotlBy(0x7A879D8A, 24, 24); RotlBy(0x7A879D8A, 25, 25); RotlBy(0x7A879D8A, 26, 26); RotlBy(0x7A879D8A, 27, 27);
    RotlBy(0x7A879D8A, 28, 28); RotlBy(0x7A879D8A, 29, 29); RotlBy(0x7A879D8A, 30, 30); RotlBy(0x7A879D8A, 31, 31);
  }

  lemma TurnsTo40()
    ensures Rotl(0x7A879D8A, 32) == 0x7A879D8A && Rotl(0x7A879D8A, 33) == 0xF50F3B14
    ensures Rotl(0x7A879D8A, 34) == 0xEA1E7629 && Rotl(0x7A879D8A, 35) == 0xD43CEC53
    ensures Rotl(0x7A879D8A, 36) == 0xA879D8A7 && Rotl(0x7A879D8A, 37) == 0x50F3B14F
    ensures Rotl(0x7A879D8A, 38) == 0xA1E7629E && Rotl(0x7A879D8A, 39) == 0x43CEC53D
  {
    hide Rotl;
    NoRotation(0x7A879D8A, 32);
    RotlBy(0x7A879D8A, 33, 1); RotlBy(0x7A879D8A, 34, 2); RotlBy(0x7A879D8A, 35, 3);
    RotlBy(0x7A879D8A, 36, 4); RotlBy(0x7A879D8A, 37, 5); RotlBy(0x7A879D8A, 38, 6); RotlBy(0x7A879D8A, 39, 7);
  }

  lemma TurnsTo48()
    ensures Rotl(0x7A879D8A, 40) == 0x879D8A7A && Rotl(0x7A879D8A, 41) == 0x0F3B14F5
    ensures Rotl(0x7A879D8A, 42) == 0x1E7629EA && Rotl(0x7A879D8A, 43) == 0x3CEC53D4
    ensures Rotl(0x7A879D8A, 44) == 0x79D8A7A8 && Rotl(0x7A879D8A, 45) == 0xF3B14F50
    ensures Rotl(0x7A879D8A, 46) == 0xE7629EA1 && Rotl(0x7A879D8A, 47) == 0xCEC53D43
  {
    hide Rotl;
    RotlBy(0x7A879D8A, 40, 8); RotlBy(0x7A879D8A, 41, 9); RotlBy(0x7A879D8A, 42, 10); RotlBy(0x7A879D8A, 43, 11);
    RotlBy(0x7A879D8A, 44, 12); RotlBy(0x7A879D8A, 45, 13); RotlBy(0x7A879D8A, 46, 14); RotlBy(0x7A879D8A, 47, 15);
  }

  lemma TurnsTo56()
    ensures Rotl(0x7A879D8A, 48) == 0x9D8A7A87 && Rotl(0x7A879D8A, 49) == 0x3B14F50F
    ensures Rotl(0x7A879D8A, 50) == 0x7629EA1E && Rotl(0x7A879D8A, 51) == 0xEC53D43C
    ensures Rotl(0x7A879D8A, 52) == 0xD8A7A879 && Rotl(0x7A879D8A, 53) == 0xB14F50F3
    ensures Rotl(0x7A879D8A, 54) == 0x629EA1E7 && Rotl(0x7A879D8A, 55) == 0xC53D43CE
  {
    hide Rotl;
    RotlBy(0x7A879D8A, 48, 16); RotlBy(0x7A879D8A, 49, 17); RotlBy(0x7A879D8A, 50, 18); RotlBy(0x7A879D8A, 51, 19);
    RotlBy(0x7A879D8A, 52, 20); RotlBy(0x7A879D8A, 53, 21); RotlBy(0x7A879D8A, 54, 22); RotlBy(0x7A879D8A, 55, 23);
  }

  lemma TurnsTo64()
    ensures Rotl(0x7A879D8A, 56) == 0x8A7A879D && Rotl(0x7A879D8A, 57) == 0x14F50F3B
    ensures Rotl(0x7A879D8A, 58) == 0x29EA1E76 && Rotl(0x7A879D8A, 59) == 0x53D43CEC
    ensures Rotl(0x7A879D8A, 60) == 0xA7A879D8 && Rotl(0x7A879D8A, 61) == 0x4F50F3B1
    ensures Rotl(0x7A879D8A, 62) == 0x9EA1E762 && Rotl(0x7A879D8A, 63) == 0x3D43CEC5
  {
    hide Rotl;
    RotlBy(0x7A879D8A, 56, 24); RotlBy(0x7A879D8A, 57, 25); RotlBy(0x7A879D8A, 58, 26); RotlBy(0x7A879D8A, 59, 27);
    RotlBy(0x7A879D8A, 60, 28); RotlBy(0x7A879D8A, 61, 29); RotlBy(0x7A879D8A, 62, 30); RotlBy(0x7A879D8A, 63, 31);
  }

  lemma NoRounds()
    ensures Rounds(WORDS, ABC, 0, IV) == IV
  {
  }

  lemma RoundsTo8()
    ensures Rounds(WORDS, ABC, 8, IV)
         == State(0x1022AC97, 0x33130100, 0x94194E6E, 0x32AECC3F,
                  0x367250A1, 0x3391EC8A, 0xB1CD6787, 0x97545690)
  {
    hide W, Rounds, Rotl;
    TurnsTo8();
    NoRounds();
    FirstWords();
    RoundsMore(ABC, 0, IV); RoundsMore(ABC, 1, IV); RoundsMore(ABC, 2, IV); RoundsMore(ABC, 3, IV);
    RoundsMore(ABC, 4, IV); RoundsMore(ABC, 5, IV); RoundsMore(ABC, 6, IV); RoundsMore(ABC, 7, IV);
  }

  lemma RoundsTo16()
    ensures Rounds(WORDS, ABC, 16, IV)
         == State(0x34D1691E, 0x7C529778, 0x92B57849, 0x979AB113,
                  0x61F99646, 0x3EE95933, 0x2AA0D251, 0xDB131B86)
  {
    hide W, Rounds, Rotl;
    TurnsTo16();
    RoundsTo8();
    FirstWords();
    WordsTo24();
    RoundsMore(ABC, 8, IV); RoundsMore(ABC, 9, IV); RoundsMore(ABC, 10, IV); RoundsMore(ABC, 11, IV);
    RoundsMore(ABC, 12, IV); RoundsMore(ABC, 13, IV); RoundsMore(ABC, 14, IV); RoundsMore(ABC, 15, IV);
  }

  lemma RoundsTo24()
    ensures Rounds(WORDS, ABC, 24, IV)
         == State(0xF368DA78, 0xEEEEC41A, 0x185F9A9A, 0x8AF12C05,
                  0x6A879032, 0xB5523911, 0xE84ABB78, 0x340BA2BB)
  {
    hide W, Rounds, Rotl;
    TurnsTo24();
    RoundsTo16();
    WordsTo24();
    WordsTo32();
    RoundsMore(ABC, 16, IV); RoundsMore(ABC, 17, IV); RoundsMore(ABC, 18, IV); RoundsMore(ABC, 19, IV);
    RoundsMore(ABC, 20, IV); RoundsMore(ABC, 21, IV); RoundsMore(ABC, 22, IV); RoundsMore(ABC, 23, IV);
  }

  lemma RoundsTo32()
    ensures Rounds(WORDS, ABC, 32, IV)
         == State(0x89A13E59, 0xA5A4A2B3, 0x37593BFF, 0x3D708FC2,
                  0x0A1FF572, 0xE92DF4EA, 0xA36CC08D, 0x74B72DB2)
  {
    hide W, Rounds, Rotl;
    TurnsTo32();
    RoundsTo24();
    WordsTo32();
    WordsTo42();
    RoundsMore(ABC, 24, IV); RoundsMore(ABC, 25, IV); RoundsMore(ABC, 26, IV); RoundsMore(ABC, 27, IV);
    RoundsMore(ABC, 28, IV); RoundsMore(ABC, 29, IV); RoundsMore(ABC, 30, IV); RoundsMore(ABC, 31, IV);
  }

  lemma RoundsTo40()
    ensures Rounds(WORDS, ABC, 40, IV)
         == State(0x19F363F9, 0x2F13C4AD, 0x4A0B31CE, 0x85AE57C2,
                  0xC302BADB, 0x1A6CABC9, 0xFE9E3FC9, 0xAC36A284)
  {
    hide W, Rounds, Rotl;
    TurnsTo40();
    RoundsTo32();
    WordsTo42();
    WordsTo55();
    RoundsMore(ABC, 32, IV); RoundsMore(ABC, 33, IV); RoundsMore(ABC, 34, IV); RoundsMore(ABC, 35, IV);
    RoundsMore(ABC, 36, IV); RoundsMore(ABC, 37, IV); RoundsMore(ABC, 38, IV); RoundsMore(ABC, 39, IV);
  }

  lemma RoundsTo48()
    ensures Rounds(WORDS, ABC, 48, IV)
         == State(0x47C5BE50, 0xE51076B3, 0x12150DA4, 0xD0B273B0,
                  0x3567734E, 0xD9F89E61, 0xB1297299, 0xEFAC7743)
  {
    hide W, Rounds, Rotl;
    TurnsTo48();
    RoundsTo40();
    WordsTo42();
    WordsTo55();
    RoundsMore(ABC, 40, IV); RoundsMore(ABC, 41, IV); RoundsMore(ABC, 42, IV); RoundsMore(ABC, 43, IV);
    RoundsMore(ABC, 44, IV); RoundsMore(ABC, 45, IV); RoundsMore(ABC, 46, IV); RoundsMore(ABC, 47, IV);
  }

  lemma RoundsTo56()
    ensures Rounds(WORDS, ABC, 56, IV)
         == State(0x22A79585, 0x549DB4B7, 0x825D05E8, 0x01DA5E94,
                  0x9D4DB19A, 0xF6BC15ED, 0x03E3A14C, 0xB3A83A0F)
  {
    hide W, Rounds, Rotl;
    TurnsTo56();
    RoundsTo48();
    WordsTo55();
    WordsTo68();
    RoundsMore(ABC, 48, IV); RoundsMore(ABC, 49, IV); RoundsMore(ABC, 50, IV); RoundsMore(ABC, 51, IV);
    RoundsMore(ABC, 52, IV); RoundsMore(ABC, 53, IV); RoundsMore(ABC, 54, IV); RoundsMore(ABC, 55, IV);
  }

  lemma RoundsTo64()
    ensures Rounds(WORDS, ABC, 64, IV)
         == State(0x1547E69B, 0x2BFA5F60, 0xC6D696BC, 0x069AE2E2,
                  0xE808F43B, 0x4AC3CF08, 0xCAF04E66, 0x3FB0A6AE)
  {
    hide W, Rounds, Rotl;
    TurnsTo64();
    RoundsTo56();
    WordsTo68();
    RoundsMore(ABC, 56, IV); RoundsMore(ABC, 57, IV); RoundsMore(ABC, 58, IV); RoundsMore(ABC, 59, IV);
    RoundsMore(ABC, 60, IV); RoundsMore(ABC, 61, IV); RoundsMore(ABC, 62, IV); RoundsMore(ABC, 63, IV);
  }

  // ---------- The digest ----------

  lemma Compressed()
    ensures COMPRESS(IV, ABC)
         == State(0x66C7F0F4, 0x62EEEDD9, 0xD1F2D46B, 0xDC10E4E2,
                  0x4167C487, 0x5CF2F7A2, 0x297DA02B, 0x8F4BA8E0)
  {
    hide W, Rounds;
    RoundsTo64();
  }

  lemma PaddedAbc()
    ensures [0x61, 0x62, 0x63] + Padding(3) == ABC
  {
    LengthOfAbc();
    assert PadZeros(3) == 52;
  }

  lemma LengthOfAbc()
    ensures BigEndian(8 * 3, 8) == ZeroBytes(7) + [24]
  {
    assert BigEndian(24, 8) == BigEndian(0, 7) + [24];
    ZeroLength(7);
  }

  lemma {:induction false} ZeroLength(n: nat)
    ensures BigEndian(0, n) == ZeroBytes(n)
  {
    if n > 0 {
      ZeroLength(n - 1);
      assert ZeroBytes(n) == ZeroBytes(n - 1) + [0];
    }
  }

  lemma DigestBytes()
    ensures StateBytes(State(0x66C7F0F4, 0x62EEEDD9, 0xD1F2D46B, 0xDC10E4E2,
                             0x4167C487, 0x5CF2F7A2, 0x297DA02B, 0x8F4BA8E0))
         == [0x66, 0xC7, 0xF0, 0xF4, 0x62, 0xEE, 0xED, 0xD9, 0xD1, 0xF2, 0xD4, 0x6B, 0xDC, 0x10, 0xE4, 0xE2,
             0x41, 0x67, 0xC4, 0x87, 0x5C, 0xF2, 0xF7, 0xA2, 0x29, 0x7D, 0xA0, 0x2B, 0x8F, 0x4B, 0xA8, 0xE0]
  {
    assert WordBytes(0x66C7F0F4) == [0x66, 0xC7, 0xF0, 0xF4];
    assert WordBytes(0x62EEEDD9) == [0x62, 0xEE, 0xED, 0xD9];
    assert WordBytes(0xD1F2D46B) == [0xD1, 0xF2, 0xD4, 0x6B];
    assert WordBytes(0xDC10E4E2) == [0xDC, 0x10, 0xE4, 0xE2];
    assert WordBytes(0x4167C487) == [0x41, 0x67, 0xC4, 0x87];
    assert WordBytes(0x5CF2F7A2) == [0x5C, 0xF2, 0xF7, 0xA2];
    assert WordBytes(0x297DA02B) == [0x29, 0x7D, 0xA0, 0x2B];
    assert WordBytes(0x8F4BA8E0) == [0x8F, 0x4B, 0xA8, 0xE0];
  }

  /** The digest of "abc" is the one the standard gives. */
  lemma DigestOfAbc()
    ensures Hash([0x61, 0x62, 0x63])
         == [0x66, 0xC7, 0xF0, 0xF4, 0x62, 0xEE, 0xED, 0xD9, 0xD1, 0xF2, 0xD4, 0x6B, 0xDC, 0x10, 0xE4, 0xE2,
             0x41, 0x67, 0xC4, 0x87, 0x5C, 0xF2, 0xF7, 0xA2, 0x29, 0x7D, 0xA0, 0x2B, 0x8F, 0x4B, 0xA8, 0xE0]
  {
    PaddedAbc();
    AbsorbOne(COMPRESS, IV, [], ABC);
    assert [] + ABC == ABC;
    Compressed();
    DigestBytes();
    hide Padding, StateBytes, Compress;
  }
}
