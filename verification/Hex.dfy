/** Bytes as hexadecimal text and back, and its agreement with base 16. */
module Hex {
  import opened Bytes
  import opened Bits
  import opened BaseN
  import opened Sequences

  function HexDigit(n: nat): char
    requires n < 16
  {
    if n <= 9 then (n + '0' as int) as char else (n - 10 + 'a' as int) as char
  }

  /** The four-bit halves of the bytes, in order. */
  function Nibble(x: seq<Byte>, i: nat): (n: nat)
    requires i < 2 * |x|
    ensures n < 16
  {
    if i % 2 == 0 then x[i / 2] / 16 else x[i / 2] % 16
  }

  function HexOf(x: seq<Byte>): (s: string)
    ensures |s| == 2 * |x|
  {
    seq(2 * |x|, i requires 0 <= i < 2 * |x| => HexDigit(Nibble(x, i)))
  }

  method BinToHexString(value: seq<Byte>) returns (result: string)
    ensures result == HexOf(value)
  {
    var text := new char[2 * |value|];
    var i := 0;
    while i < |value|
      invariant 0 <= i <= |value|
      invariant forall k :: 0 <= k < 2 * i ==> text[k] == HexDigit(Nibble(value, k))
    {
      text[2 * i] := HexDigit(value[i] / 16);
      text[2 * i + 1] := HexDigit(value[i] % 16);
      i := i + 1;
    }
    result := text[..];
  }

  /** The value of a digit, or -1; capital letters count unless only small ones are wanted. */
  function HexValue(c: char, forceLittle: bool): (v: int)
    ensures -1 <= v < 16
  {
    if '0' <= c <= '9' then c as int - '0' as int
    else if 'a' <= c <= 'f' then c as int - 'a' as int + 10
    else if 'A' <= c <= 'F' && !forceLittle then c as int - 'A' as int + 10
    else -1
  }

  predicate AllHex(s: string, forceLittle: bool) {
    forall i :: 0 <= i < |s| ==> HexValue(s[i], forceLittle) >= 0
  }

  function PairValue(s: string, forceLittle: bool, i: nat): int
    requires 2 * i + 1 < |s|
  {
    16 * HexValue(s[2 * i], forceLittle) + HexValue(s[2 * i + 1], forceLittle)
  }

  function PairAt(s: string, forceLittle: bool, i: nat): Byte
    requires |s| % 2 == 0 && AllHex(s, forceLittle) && i < |s| / 2
  {
    PairValue(s, forceLittle, i)
  }

  function Pairs(s: string, forceLittle: bool): (x: seq<Byte>)
    requires |s| % 2 == 0 && AllHex(s, forceLittle)
    ensures |x| == |s| / 2
  {
    seq(|s| / 2, i requires 0 <= i < |s| / 2 => PairAt(s, forceLittle, i))
  }

  /** Nothing for an odd or empty text, or one with a character that is not a digit. */
  function BinOf(s: string, forceLittle: bool): seq<Byte> {
    if |s| % 2 == 0 && AllHex(s, forceLittle) then Pairs(s, forceLittle) else []
  }

  method HexStringToBin(s: string, forceLittle: bool) returns (result: seq<Byte>)
    ensures result == BinOf(s, forceLittle)
  {
    if |s| % 2 != 0 || s == "" { return []; }
    var bytes := new Byte[|s| / 2](i => 0);
    var i := 0;
    ghost var k := 0;
    while i < |s| - 1
      invariant 0 <= i <= |s| && i == 2 * k
      invariant AllHex(s[..i], forceLittle)
      invariant forall j :: 0 <= j < k ==> bytes[j] == PairValue(s, forceLittle, j)
    {
      var high := HexValue(s[i], forceLittle);
      if high < 0 { return []; }
      var low := HexValue(s[i + 1], forceLittle);
      if low < 0 { return []; }
      bytes[i / 2] := 16 * high + low;
      i, k := i + 2, k + 1;
    }
    assert s[..i] == s;
    result := bytes[..];
  }

  // ---------- Round trips ----------

  lemma DigitValue(n: nat, forceLittle: bool)
    requires n < 16
    ensures HexValue(HexDigit(n), forceLittle) == n
  {
  }

  /** A small letter or a digit is the digit of its value, and only those are. */
  lemma ValueDigit(c: char, forceLittle: bool)
    requires HexValue(c, forceLittle) >= 0
    ensures HexDigit(HexValue(c, forceLittle)) == c <==> HexValue(c, true) >= 0
  {
  }

  lemma HexRead(x: seq<Byte>, forceLittle: bool)
    ensures AllHex(HexOf(x), forceLittle) && Pairs(HexOf(x), forceLittle) == x
  {
    var s := HexOf(x);
    forall i | 0 <= i < |s| ensures HexValue(s[i], forceLittle) == Nibble(x, i) {
      DigitValue(Nibble(x, i), forceLittle);
    }
  }

  /** Reading the hexadecimal text of any byte string gives the bytes back, whichever letters are wanted. */
  lemma HexRoundTrip(x: seq<Byte>, forceLittle: bool)
    ensures BinOf(HexOf(x), forceLittle) == x
  {
    HexRead(x, forceLittle);
  }

  lemma PairsWrite(s: string, forceLittle: bool)
    requires |s| % 2 == 0 && AllHex(s, true)
    ensures AllHex(s, forceLittle) && HexOf(Pairs(s, forceLittle)) == s
  {
    forall i | 0 <= i < |s|
      ensures HexValue(s[i], forceLittle) == HexValue(s[i], true)
    {
      assert HexValue(s[i], true) >= 0;
    }
    var x := Pairs(s, forceLittle);
    forall i | 0 <= i < |s| ensures HexDigit(Nibble(x, i)) == s[i] {
      HalfOfPair(s, forceLittle, i);
      ValueDigit(s[i], forceLittle);
    }
  }

  lemma HalfOfPair(s: string, forceLittle: bool, i: nat)
    requires |s| % 2 == 0 && AllHex(s, forceLittle) && i < |s|
    ensures Nibble(Pairs(s, forceLittle), i) == HexValue(s[i], forceLittle)
  {
    var high, low := HexValue(s[i / 2 * 2], forceLittle), HexValue(s[i / 2 * 2 + 1], forceLittle);
    assert (16 * high + low) / 16 == high && (16 * high + low) % 16 == low;
    assert Pairs(s, forceLittle)[i / 2] == PairAt(s, forceLittle, i / 2);
  }

  /** A text is what its bytes are written as exactly when it is pairs of digits and small letters. */
  lemma HexTextExactly(s: string, forceLittle: bool)
    ensures HexOf(BinOf(s, forceLittle)) == s <==> |s| % 2 == 0 && AllHex(s, true)
  {
    if |s| % 2 == 0 && AllHex(s, true) { PairsWrite(s, forceLittle); }
    HexRead(BinOf(s, forceLittle), true);
  }

  lemma HexSnoc(x: seq<Byte>, b: Byte)
    ensures HexOf(x + [b]) == HexOf(x) + [HexDigit(b / 16), HexDigit(b % 16)]
  {
    var y := x + [b];
    assert forall i :: 0 <= i < 2 * |x| ==> Nibble(y, i) == Nibble(x, i);
    assert Nibble(y, 2 * |x|) == b / 16 && Nibble(y, 2 * |x| + 1) == b % 16;
  }

  // ---------- Base 16 ----------

  lemma DigitIsBase16(d: nat)
    requires d < 16
    ensures Encode16(d) == HexDigit(d)
  {
  }

  /** Two groups of four bits are the two digits of a byte. */
  lemma Nibbles(b: Byte)
    ensures Num(Slice(OneByte(b), 0, 4)) == b / 16 && Num(Slice(OneByte(b), 4, 8)) == b % 16
  {
    WindowNum(b, ByteWidth(), 0, 4);
    WindowNum(b, ByteWidth(), 4, 4);
    hide Slice, Num, OneByte;
    assert Pow2(4) == 16;
    var h := b / 2;
    assert ShiftRight(b, 4) == ShiftRight(h, 3) == ShiftRight(h / 2, 2);
    assert ShiftRight(h / 2, 2) == ShiftRight(h / 2 / 2, 1) == ShiftRight(h / 2 / 2 / 2, 0);
    assert h / 2 / 2 / 2 == b / 16;
  }

  lemma TwoChars(x: seq<Byte>, i: nat)
    requires i < |x|
    ensures CharAt(BASE16, Stream(x), 8 * i) == HexDigit(x[i] / 16)
    ensures CharAt(BASE16, Stream(x), 8 * i + 4) == HexDigit(x[i] % 16)
  {
    ByteAt(x + [0], i);
    SliceOfSlice(Stream(x), 8 * i, 8 * i + 8, 0, 4);
    SliceOfSlice(Stream(x), 8 * i, 8 * i + 8, 4, 8);
    Nibbles(x[i]);
    DigitIsBase16(x[i] / 16);
    DigitIsBase16(x[i] % 16);
  }

  lemma TextNext(s: seq<bool>, pos: nat, limit: nat)
    requires limit + 4 <= |s| + 1 && pos < limit
    ensures TextFrom(BASE16, s, pos, limit) == [CharAt(BASE16, s, pos)] + TextFrom(BASE16, s, pos + 4, limit)
  {
  }

  lemma Pair(a: char, b: char, rest: string)
    ensures [a] + ([b] + rest) == [a, b] + rest
  {
  }

  lemma TwoMore(x: seq<Byte>, i: nat)
    requires i < |x|
    ensures TextFrom(BASE16, Stream(x), 8 * i, 8 * |x|)
         == [HexDigit(x[i] / 16), HexDigit(x[i] % 16)] + TextFrom(BASE16, Stream(x), 8 * i + 8, 8 * |x|)
  {
    hide TextFrom, CharAt, HexDigit, Slice, Num;
    TwoChars(x, i);
    TextNext(Stream(x), 8 * i, 8 * |x|);
    TextNext(Stream(x), 8 * i + 4, 8 * |x|);
    Pair(HexDigit(x[i] / 16), HexDigit(x[i] % 16), TextFrom(BASE16, Stream(x), 8 * i + 8, 8 * |x|));
  }

  lemma {:induction false} HexFrom(x: seq<Byte>, i: nat)
    requires i <= |x|
    ensures HexOf(x[..i]) + TextFrom(BASE16, Stream(x), 8 * i, 8 * |x|) == HexOf(x)
    decreases |x| - i
  {
    if i == |x| {
      assert x[..i] == x;
      NoPads(i);
    } else {
      HexFrom(x, i + 1);
      OneMore(x, i);
    }
  }

  lemma OneMore(x: seq<Byte>, i: nat)
    requires i < |x|
    ensures HexOf(x[..i]) + TextFrom(BASE16, Stream(x), 8 * i, 8 * |x|)
         == HexOf(x[..i + 1]) + TextFrom(BASE16, Stream(x), 8 * (i + 1), 8 * |x|)
  {
    hide TextFrom, HexDigit, Stream, HexOf, Nibble;
    TwoMore(x, i);
    assert x[..i + 1] == x[..i] + [x[i]];
    HexSnoc(x[..i], x[i]);
    var rest := TextFrom(BASE16, Stream(x), 8 * i + 8, 8 * |x|);
    Behind(HexOf(x[..i]), [HexDigit(x[i] / 16), HexDigit(x[i] % 16)], rest);
  }

  lemma NoPads(i: nat)
    ensures EqualSigns(PadCount(4, 8 * i)) == []
  {
  }

  /** Base 16 is hexadecimal text: the generic encoder and the direct one agree on every byte string. */
  lemma Base16IsHex(x: seq<Byte>)
    ensures Encoded(BASE16, x) == HexOf(x)
  {
    HexFrom(x, 0);
    assert HexOf(x[..0]) + Encoded(BASE16, x) == Encoded(BASE16, x);
  }
}
