/**
  Base58 in place: Encode by long division into a buffer of digits, Decode by long multiplication
  into a buffer of bytes, and the decoder over big numbers that Decode replaces.
*/
module Base58 {
  import opened Bytes
  import opened Radix

  // ---------- The alphabet ----------

  /** The dictionary, eight letters to a row. */
  function LetterRow(row: nat): string
    requires row < 8
  {
    match row
    case 0 => "12345678"
    case 1 => "9AbCDEFG"
    case 2 => "HJKLMNPQ"
    case 3 => "RSTuVWXY"
    case 4 => "ZaBcdefg"
    case 5 => "hijkmnop"
    case 6 => "qrstUvwx"
    case 7 => "yz"
  }

  function Letter(d: nat): char
    requires d < 58
  {
    LetterRow(d / 8)[d % 8]
  }

  /** The table of digits by character code, sixteen codes to a row; -1 where there is no digit. */
  function DigitRow(row: nat): seq<int>
    requires row < 8
  {
    match row
    case 0 => [-1, -1, -1, -1, -1, -1, -1, -1, -1, -1, -1, -1, -1, -1, -1, -1]
    case 1 => [-1, -1, -1, -1, -1, -1, -1, -1, -1, -1, -1, -1, -1, -1, -1, -1]
    case 2 => [-1, -1, -1, -1, -1, -1, -1, -1, -1, -1, -1, -1, -1, -1, -1, -1]
    case 3 => [-1, 0, 1, 2, 3, 4, 5, 6, 7, 8, -1, -1, -1, -1, -1, -1]
    case 4 => [-1, 9, 34, 11, 12, 13, 14, 15, 16, -1, 17, 18, 19, 20, 21, -1]
    case 5 => [22, 23, 24, 25, 26, 52, 28, 29, 30, 31, 32, -1, -1, -1, -1, -1]
    case 6 => [-1, 33, 10, 35, 36, 37, 38, 39, 40, 41, 42, 43, -1, 44, 45, 46]
    case 7 => [47, 48, 49, 50, 51, 27, 53, 54, 55, 56, 57, -1, -1, -1, -1, -1]
  }

  /** A 7-bit character. */
  type Ascii = c: char | c as int < 128 witness '1'

  function Digit(c: Ascii): int {
    DigitRow(c as int / 16)[c as int % 16]
  }

  predicate InAlphabet(s: seq<Ascii>) {
    forall c :: c in s ==> Digit(c) >= 0
  }

  lemma LettersFirst(row: nat, k: nat)
    requires row < 2 && k < |LetterRow(row)|
    ensures LetterRow(row)[k] as int < 128 && Digit(LetterRow(row)[k]) == 8 * row + k
  {
    match row { case 0 => case 1 => }
  }

  lemma LettersSecond(row: nat, k: nat)
    requires 2 <= row < 4 && k < |LetterRow(row)|
    ensures LetterRow(row)[k] as int < 128 && Digit(LetterRow(row)[k]) == 8 * row + k
  {
    match row { case 2 => case 3 => }
  }

  lemma LettersThird(row: nat, k: nat)
    requires 4 <= row < 6 && k < |LetterRow(row)|
    ensures LetterRow(row)[k] as int < 128 && Digit(LetterRow(row)[k]) == 8 * row + k
  {
    match row { case 4 => case 5 => }
  }

  lemma LettersLast(row: nat, k: nat)
    requires 6 <= row < 8 && k < |LetterRow(row)|
    ensures LetterRow(row)[k] as int < 128 && Digit(LetterRow(row)[k]) == 8 * row + k
  {
    match row { case 6 => case 7 => }
  }

  /** The table undoes the dictionary. */
  lemma DigitOfLetter(d: nat)
    requires d < 58
    ensures Letter(d) as int < 128 && Digit(Letter(d)) == d
  {
    if d < 16 { LettersFirst(d / 8, d % 8); }
    else if d < 32 { LettersSecond(d / 8, d % 8); }
    else if d < 48 { LettersThird(d / 8, d % 8); }
    else { LettersLast(d / 8, d % 8); }
  }

  lemma DigitsFirst(row: nat, k: nat)
    requires row < 4 && k < 16
    ensures -1 <= DigitRow(row)[k] < 58
    ensures DigitRow(row)[k] >= 0 ==> Letter(DigitRow(row)[k]) as int == 16 * row + k
  {
    match row { case 0 => case 1 => case 2 => case 3 => }
  }

  lemma DigitsMiddle(row: nat, k: nat)
    requires 4 <= row < 6 && k < 16
    ensures -1 <= DigitRow(row)[k] < 58
    ensures DigitRow(row)[k] >= 0 ==> Letter(DigitRow(row)[k]) as int == 16 * row + k
  {
    match row { case 4 => case 5 => }
  }

  lemma DigitsLast(row: nat, k: nat)
    requires 6 <= row < 8 && k < 16
    ensures -1 <= DigitRow(row)[k] < 58
    ensures DigitRow(row)[k] >= 0 ==> Letter(DigitRow(row)[k]) as int == 16 * row + k
  {
    match row { case 6 => case 7 => }
  }

  /** The dictionary undoes the table. */
  lemma LetterOfDigit(c: Ascii)
    ensures -1 <= Digit(c) < 58
    ensures Digit(c) >= 0 ==> Letter(Digit(c)) == c
  {
    if c as int < 64 { DigitsFirst(c as int / 16, c as int % 16); }
    else if c as int < 96 { DigitsMiddle(c as int / 16, c as int % 16); }
    else { DigitsLast(c as int / 16, c as int % 16); }
  }

  // ---------- Which letter a digit is ----------

  /** The dictionary is the usual one in order of character codes, but for B and b, and for U and u, exchanged. */
  function Exchanged(c: char): char {
    match c
    case 'B' => 'b'
    case 'b' => 'B'
    case 'U' => 'u'
    case 'u' => 'U'
    case _ => c
  }

  lemma RisesWithin(row: nat, k: nat)
    requires row < 8 && k + 1 < |LetterRow(row)|
    ensures Exchanged(LetterRow(row)[k]) < Exchanged(LetterRow(row)[k + 1])
  {
    match row { case 0 => case 1 => case 2 => case 3 => case 4 => case 5 => case 6 => case 7 => }
  }

  lemma RisesBetween(row: nat)
    requires row < 7
    ensures Exchanged(LetterRow(row)[7]) < Exchanged(LetterRow(row + 1)[0])
  {
    match row { case 0 => case 1 => case 2 => case 3 => case 4 => case 5 => case 6 => }
  }

  /** With the two pairs exchanged, the letters rise with their digits. */
  lemma {:induction false} LettersRise(d: nat, e: nat)
    requires d < e < 58
    ensures Exchanged(Letter(d)) < Exchanged(Letter(e))
    decreases e
  {
    hide Letter, Exchanged;
    NextLetter(e - 1);
    if d < e - 1 { LettersRise(d, e - 1); }
  }

  lemma NextLetter(d: nat)
    requires d + 1 < 58
    ensures Exchanged(Letter(d)) < Exchanged(Letter(d + 1))
  {
    var row, k := d / 8, d % 8;
    if k < 7 {
      RisesWithin(row, k);
      assert (d + 1) / 8 == row && (d + 1) % 8 == k + 1;
    } else {
      RisesBetween(row);
      assert (d + 1) / 8 == row + 1 && (d + 1) % 8 == 0;
    }
    hide LetterRow, Exchanged;
  }

  predicate DigitOrLetter(c: char) {
    '0' <= c <= '9' || 'A' <= c <= 'Z' || 'a' <= c <= 'z'
  }

  lemma RowsWithin(row: nat, k: nat)
    requires row < 8 && k < |LetterRow(row)|
    ensures DigitOrLetter(LetterRow(row)[k]) && LetterRow(row)[k] !in {'0', 'I', 'O', 'l'}
  {
    match row { case 0 => case 1 => case 2 => case 3 => case 4 => case 5 => case 6 => case 7 => }
  }

  lemma TableLow(row: nat, k: nat)
    requires row < 6 && k < 16
    ensures DigitOrLetter((16 * row + k) as char) && (16 * row + k) as char !in {'0', 'I', 'O', 'l'} ==>
      DigitRow(row)[k] >= 0
  {
    match row { case 0 => case 1 => case 2 => case 3 => case 4 => case 5 => }
  }

  lemma TableHigh(row: nat, k: nat)
    requires 6 <= row < 8 && k < 16
    ensures DigitOrLetter((16 * row + k) as char) && (16 * row + k) as char !in {'0', 'I', 'O', 'l'} ==>
      DigitRow(row)[k] >= 0
  {
    match row { case 6 => case 7 => }
  }

  /** And they are the digits and letters without 0, I, O and l: so their order fixes every one of them. */
  lemma AlphabetExactly(c: char)
    ensures (exists d: nat :: d < 58 && Letter(d) == c) <==> DigitOrLetter(c) && c !in {'0', 'I', 'O', 'l'}
  {
    if DigitOrLetter(c) && c !in {'0', 'I', 'O', 'l'} {
      if c as int < 96 { TableLow(c as int / 16, c as int % 16); } else { TableHigh(c as int / 16, c as int % 16); }
      assert Digit(c) >= 0;
      LetterOfDigit(c);
    }
    forall d: nat | d < 58 ensures DigitOrLetter(Letter(d)) && Letter(d) !in {'0', 'I', 'O', 'l'} {
      RowsWithin(d / 8, d % 8);
    }
  }

  function Text(digits: seq<nat>): (s: seq<Ascii>)
    requires DigitsBelow(58, digits)
    ensures |s| == |digits|
  {
    seq(|digits|, i requires 0 <= i < |digits| => DigitOfLetter(digits[i]); Letter(digits[i]))
  }

  /** What Decode takes for the digit of a character: where the table says -1, it reads 255. */
  function Code(c: Ascii): (n: nat)
    ensures n < 256
  {
    LetterOfDigit(c);
    if Digit(c) == -1 then 255 else Digit(c)
  }

  function Codes(s: seq<Ascii>): (r: seq<nat>)
    ensures |r| == |s|
  {
    seq(|s|, i requires 0 <= i < |s| => Code(s[i]))
  }

  function LeadingOnes(s: seq<Ascii>): (n: nat)
    ensures n <= |s|
  {
    if s != [] && s[0] == '1' then 1 + LeadingOnes(s[1..]) else 0
  }

  function Ones(n: nat): (s: seq<Ascii>)
    ensures |s| == n && forall i :: 0 <= i < n ==> s[i] == '1'
  {
    seq(n, i => '1')
  }

  // ---------- What the text of a byte string is ----------

  function Encoded(x: seq<Byte>): seq<Ascii> {
    ValueOfDigits(58, Value(256, x));
    Ones(LeadingZeros(x)) + Text(Digits(58, Value(256, x)))
  }

  function ToBytes(digits: seq<nat>): (x: seq<Byte>)
    requires DigitsBelow(256, digits)
    ensures x == digits
  {
    seq(|digits|, i requires 0 <= i < |digits| => digits[i])
  }

  /** The number a text stands for, after its leading ones. */
  function Number(s: seq<Ascii>): nat {
    Value(58, Codes(s[LeadingOnes(s)..]))
  }

  function Decoded(s: seq<Ascii>): seq<Byte> {
    ValueOfDigits(256, Number(s));
    ToBytes(Zeros(LeadingOnes(s)) + Digits(256, Number(s)))
  }

  /** The decoder over big numbers gives nothing at all for a text with a letter outside the alphabet. */
  function OldDecoded(s: seq<Ascii>): seq<Byte> {
    if InAlphabet(s[LeadingOnes(s)..]) then Decoded(s) else []
  }

  // ---------- Encode ----------

  lemma EightBytesInElevenDigits()
    ensures Pow(256, 8) <= Pow(58, 11)
  {
    assert Pow(256, 4) == 256 * (256 * (256 * 256)) by { assert Pow(256, 1) == 256; }
    assert Pow(256, 8) == Pow(256, 4) * Pow(256, 4) by { PowAdd(256, 4, 4); }
    assert Pow(58, 5) == 58 * (58 * (58 * (58 * 58))) by {
      assert Pow(58, 1) == 58;
      assert Pow(58, 2) == 58 * 58;
      assert Pow(58, 3) == 58 * (58 * 58);
    }
    assert Pow(58, 10) == Pow(58, 5) * Pow(58, 5) by { PowAdd(58, 5, 5); }
    assert Pow(58, 11) == 58 * Pow(58, 10);
  }

  /** The buffer of 138 digits for every 100 bytes, and one more, is large enough. */
  lemma {:induction false} EncodeFits(n: nat)
    ensures Pow(256, n) <= Pow(58, n * 138 / 100 + 1)
  {
    if n < 8 {
      FewBytesFit(n);
    } else {
      hide Pow;
      EncodeFits(n - 8);
      EightBytesInElevenDigits();
      ElevenMore(n);
      var m := (n - 8) * 138 / 100 + 1;
      Together(n - 8, m, 8, 11);
      PowMonotone(58, m + 11, n * 138 / 100 + 1);
    }
  }

  lemma SmallPowers()
    ensures Pow(256, 0) == 1 && Pow(256, 1) == 256 && Pow(256, 2) == 65536 && Pow(256, 5) == 1099511627776
    ensures Pow(58, 1) == 58 && Pow(58, 2) == 3364 && Pow(58, 3) == 195112 && Pow(58, 7) == 2207984167552
  {
    assert Pow(256, 1) == 256 && Pow(256, 2) == 65536 && Pow(256, 3) == 16777216 && Pow(256, 4) == 4294967296;
    assert Pow(58, 1) == 58 && Pow(58, 2) == 3364 && Pow(58, 3) == 195112 && Pow(58, 4) == 11316496;
    assert Pow(58, 5) == 656356768 && Pow(58, 6) == 38068692544;
  }

  lemma ElevenMore(n: nat)
    requires n >= 8
    ensures (n - 8) * 138 / 100 + 11 <= n * 138 / 100
  {
  }

  lemma FewBytesFit(n: nat)
    requires n < 8
    ensures Pow(256, n) <= Pow(58, n * 138 / 100 + 1)
  {
    SmallPowers();
    if n == 3 { Together(2, 3, 1, 2); }
    if n == 4 { Together(2, 3, 2, 3); }
    if n == 6 { Together(2, 3, 2, 3); Together(4, 6, 2, 3); }
    if n == 7 { Together(5, 7, 2, 3); }
  }

  lemma Together(m: nat, d: nat, n: nat, e: nat)
    requires Pow(256, m) <= Pow(58, d) && Pow(256, n) <= Pow(58, e)
    ensures Pow(256, m + n) <= Pow(58, d + e)
  {
    PowAdd(256, m, n);
    PowAdd(58, d, e);
    MulMonotone(Pow(256, m), Pow(58, d), Pow(256, n), Pow(58, e));
  }

  lemma MulMonotone(a: nat, b: nat, c: nat, d: nat)
    requires a <= b && c <= d
    ensures a * c <= b * d
  {
    assert a * c <= b * c <= b * d;
  }

  /** Writing one more byte below the number read so far. */
  lemma ReadByte(base: nat, s: seq<nat>, i: nat)
    requires i < |s|
    ensures Value(base, s[..i + 1]) == base * Value(base, s[..i]) + s[i]
  {
    assert s[..i + 1][..i] == s[..i];
  }

  lemma PrefixBound(base: nat, s: seq<nat>, i: nat)
    requires base >= 1 && DigitsBelow(base, s) && i <= |s|
    ensures Value(base, s[..i]) < Pow(base, |s|)
  {
    ValueBound(base, s[..i]);
    PowMonotone(base, i, |s|);
  }

  /** Skip the zeros at the front of a buffer. */
  method SkipZeros(a: array<nat>) returns (k: nat)
    ensures k == LeadingZeros(a[..]) && k <= a.Length
  {
    k := 0;
    assert a[0..] == a[..];
    while k < a.Length && a[k] == 0
      invariant k <= a.Length && LeadingZeros(a[..]) == k + LeadingZeros(a[k..])
    {
      assert a[k..][1..] == a[k + 1..];
      k := k + 1;
    }
    if k < a.Length { assert a[k..][0] == a[k]; }
  }

  /** The zero bytes at the front, and the last of them: that is where the long division starts. */
  method CountZeros(input: seq<Byte>) returns (zeros: nat, first: nat)
    ensures zeros == LeadingZeros(input) && first <= zeros <= |input| && input[..first] == Zeros(first)
    ensures first == if zeros == 0 then 0 else zeros - 1
  {
    zeros, first := 0, 0;
    assert input[0..] == input;
    while zeros < |input| && input[zeros] == 0
      invariant zeros <= |input| && LeadingZeros(input) == zeros + LeadingZeros(input[zeros..])
      invariant first == if zeros == 0 then 0 else zeros - 1
      invariant input[..zeros] == Zeros(zeros)
    {
      assert input[zeros..][1..] == input[zeros + 1..];
      first := zeros;
      zeros := zeros + 1;
    }
    if zeros < |input| { assert input[zeros..][0] == input[zeros]; }
  }

  /** Feed the bytes from position `first` on into a zero buffer large enough for all of them. */
  method Divide(b58: array<nat>, input: seq<Byte>, first: nat)
    requires b58[..] == Zeros(b58.Length) && b58.Length == |input| * 138 / 100 + 1
    requires first <= |input| && input[..first] == Zeros(first)
    modifies b58
    ensures DigitsBelow(58, b58[..]) && Value(58, b58[..]) == Value(256, input)
  {
    hide Value, Pow;
    ValueOfZeros(58, b58.Length);
    ValueOfZeros(256, first);
    EncodeFits(|input|);
    var i := first;
    while i < |input|
      invariant first <= i <= |input| && DigitsBelow(58, b58[..])
      invariant Value(58, b58[..]) == Value(256, input[..i])
    {
      var carry := MultiplyAdd(b58, 58, 256, input[i]);
      ReadByte(256, input, i);
      PrefixBound(256, input, i + 1);
      NoCarry(carry, Pow(58, b58.Length), Value(58, b58[..]), Value(256, input[..i + 1]));
      i := i + 1;
    }
    assert input[..i] == input;
  }

  lemma TextAppend(digits: seq<nat>, d: nat)
    requires DigitsBelow(58, digits) && d < 58
    ensures Letter(d) as int < 128 && Text(digits + [d]) == Text(digits) + [Letter(d)]
  {
    DigitOfLetter(d);
  }

  method AppendLetters(head: seq<Ascii>, b58: array<nat>, from: nat) returns (text: seq<Ascii>)
    requires from <= b58.Length && DigitsBelow(58, b58[..])
    ensures DigitsBelow(58, b58[from..]) && text == head + Text(b58[from..])
  {
    text := head;
    var k := from;
    assert forall i :: 0 <= i < b58.Length ==> b58[i] == b58[..][i];
    while k < b58.Length
      invariant from <= k <= b58.Length && DigitsBelow(58, b58[from..k])
      invariant text == head + Text(b58[from..k])
    {
      TextAppend(b58[from..k], b58[k]);
      assert b58[from..k + 1] == b58[from..k] + [b58[k]];
      text := text + [Letter(b58[k])];
      k := k + 1;
    }
    assert b58[from..k] == b58[from..];
  }

  method Encode(input: seq<Byte>) returns (text: seq<Ascii>)
    ensures text == Encoded(input)
  {
    var zeros, first := CountZeros(input);
    var b58 := new nat[|input| * 138 / 100 + 1](i => 0);
    assert b58[..] == Zeros(b58.Length);
    Divide(b58, input, first);
    var k := SkipZeros(b58);
    StripValue(58, b58[..]);
    text := AppendLetters(Ones(zeros), b58, k);
  }

  // ---------- Decode ----------

  /** The largest n with 256^n <= x, the whole part of the logarithm of x to base 256. */
  function Log256(x: nat): (n: nat)
    requires x > 0
  {
    if x < 256 then 0 else 1 + Log256(x / 256)
  }

  lemma {:induction false} Log256Bounds(x: nat)
    requires x > 0
    ensures Pow(256, Log256(x)) <= x < Pow(256, Log256(x) + 1)
  {
    if x >= 256 {
      Log256Bounds(x / 256);
      var n := Log256(x / 256);
      assert 256 * Pow(256, n) <= 256 * (x / 256) <= x;
      assert x < 256 * (x / 256 + 1) <= 256 * Pow(256, n + 1);
    }
  }

  /** The buffer size Decode computes from the number of letters: the whole part of count * log2(58) / 8, and two. */
  function DecodeSize(count: nat): nat {
    PowPositive(58, count);
    Log256(Pow(58, count)) + 2
  }

  /** Even when letters outside the alphabet count as 255, the number stays within the buffer. */
  lemma {:induction false} CodesBound(codes: seq<nat>)
    requires DigitsBelow(256, codes)
    ensures Value(58, codes) + 255 <= 255 * Pow(58, |codes|)
  {
    if codes != [] {
      var n := |codes| - 1;
      CodesBound(codes[..n]);
      assert 58 * (Value(58, codes[..n]) + 255) <= 58 * (255 * Pow(58, n));
    }
  }

  lemma DecodeFits(codes: seq<nat>, count: nat)
    requires DigitsBelow(256, codes) && |codes| <= count
    ensures Value(58, codes) < Pow(256, DecodeSize(count))
  {
    CodesBound(codes);
    PowMonotone(58, |codes|, count);
    PowPositive(58, count);
    Log256Bounds(Pow(58, count));
    assert Pow(256, DecodeSize(count)) == 256 * Pow(256, Log256(Pow(58, count)) + 1);
  }

  method CountOnes(s: seq<Ascii>) returns (n: nat)
    ensures n == LeadingOnes(s)
  {
    n := 0;
    assert s[0..] == s;
    while n < |s| && s[n] == '1'
      invariant n <= |s| && LeadingOnes(s) == n + LeadingOnes(s[n..])
    {
      assert s[n..][1..] == s[n + 1..];
      n := n + 1;
    }
    if n < |s| { assert s[n..][0] == s[n]; }
  }

  /** Feed letters into a zero buffer of the size Decode computes for them. */
  method Multiply(buffer: array<nat>, letters: seq<Ascii>)
    requires buffer[..] == Zeros(buffer.Length) && buffer.Length == DecodeSize(|letters|)
    modifies buffer
    ensures DigitsBelow(256, buffer[..]) && Value(256, buffer[..]) == Value(58, Codes(letters))
  {
    ValueOfZeros(256, buffer.Length);
    var i := 0;
    while i < |letters|
      invariant i <= |letters| && DigitsBelow(256, buffer[..])
      invariant Value(256, buffer[..]) == Value(58, Codes(letters)[..i])
    {
      var carry := MultiplyAdd(buffer, 256, 58, Code(letters[i]));
      ReadByte(58, Codes(letters), i);
      DecodeFits(Codes(letters)[..i + 1], |letters|);
      NoCarry(carry, Pow(256, buffer.Length), Value(256, buffer[..]), Value(58, Codes(letters)[..i + 1]));
      i := i + 1;
    }
    assert Codes(letters)[..i] == Codes(letters);
  }

  method Decode(s: seq<Ascii>) returns (output: seq<Byte>, size: nat)
    ensures output == Decoded(s) && size == |output|
  {
    var zeros := CountOnes(s);
    var letters := s[zeros..];
    var buffer := new nat[DecodeSize(|letters|)](i => 0);
    assert buffer[..] == Zeros(buffer.Length);
    Multiply(buffer, letters);
    var k := SkipZeros(buffer);
    StripValue(256, buffer[..]);
    output := ToBytes(Zeros(zeros)) + ToBytes(buffer[k..]);
    size := zeros + buffer.Length - k;
  }

  // ---------- The decoder over big numbers ----------

  /** What the table says for each letter. */
  function LookUps(s: seq<Ascii>): (r: seq<int>)
    ensures |r| == |s|
  {
    seq(|s|, i requires 0 <= i < |s| => Digit(s[i]))
  }

  lemma LookUpsAre(s: seq<Ascii>)
    ensures forall i :: 0 <= i < |s| ==> -1 <= LookUps(s)[i] < 58
    ensures InAlphabet(s) <==> forall i :: 0 <= i < |s| ==> LookUps(s)[i] != -1
    ensures InAlphabet(s) ==> Codes(s) == LookUps(s)
  {
    forall i | 0 <= i < |s| ensures -1 <= LookUps(s)[i] < 58 && (LookUps(s)[i] != -1 ==> Codes(s)[i] == LookUps(s)[i]) {
      LetterOfDigit(s[i]);
    }
    if forall i :: 0 <= i < |s| ==> LookUps(s)[i] != -1 {
      forall c | c in s ensures Digit(c) >= 0 {
        var i :| 0 <= i < |s| && s[i] == c;
        assert LookUps(s)[i] == Digit(c);
      }
    } else {
      var i :| 0 <= i < |s| && LookUps(s)[i] == -1;
      assert s[i] in s;
    }
  }

  /** The number of some digits, or failure at the first entry that is not one. */
  method BigNumber(digits: seq<int>) returns (ok: bool, number: nat)
    requires forall i :: 0 <= i < |digits| ==> -1 <= digits[i]
    ensures ok <==> forall i :: 0 <= i < |digits| ==> digits[i] != -1
    ensures ok ==> number == Value(58, digits)
  {
    number := 0;
    var i := 0;
    while i < |digits|
      invariant i <= |digits| && forall j :: 0 <= j < i ==> digits[j] != -1
      invariant number == Value(58, digits[..i])
    {
      if digits[i] == -1 { return false, number; }
      ReadByte(58, digits[..i + 1], i);
      assert digits[..i + 1][..i] == digits[..i] && digits[..i + 1][..i + 1] == digits[..i + 1];
      number := number * 58 + digits[i];
      i := i + 1;
    }
    assert digits[..i] == digits;
    ok := true;
  }

  method DecodeOld(s: seq<Ascii>) returns (output: seq<Byte>, size: nat)
    ensures output == OldDecoded(s) && size == |output|
  {
    var zeros := CountOnes(s);
    LookUpsAre(s[zeros..]);
    var ok, number := BigNumber(LookUps(s[zeros..]));
    if !ok { return [], 0; }
    ValueOfDigits(256, number);
    var digits := Digits(256, number);
    output := ToBytes(Zeros(zeros) + digits);
    size := zeros + |digits|;
  }

  // ---------- Round trips ----------

  lemma CodesOfText(digits: seq<nat>)
    requires DigitsBelow(58, digits)
    ensures Codes(Text(digits)) == digits && InAlphabet(Text(digits))
  {
    forall i | 0 <= i < |digits| ensures Code(Text(digits)[i]) == digits[i] && Digit(Text(digits)[i]) >= 0 {
      DigitOfLetter(digits[i]);
    }
  }

  lemma TextOfCodes(s: seq<Ascii>)
    requires InAlphabet(s)
    ensures DigitsBelow(58, Codes(s)) && Text(Codes(s)) == s
  {
    forall i | 0 <= i < |s| ensures Codes(s)[i] < 58 && Letter(Codes(s)[i]) == s[i] {
      LetterOfDigit(s[i]);
    }
  }

  lemma {:induction false} LeadingOnesOf(n: nat, s: seq<Ascii>)
    requires s != [] ==> s[0] != '1'
    ensures LeadingOnes(Ones(n) + s) == n
  {
    if n == 0 {
      assert Ones(0) + s == s;
    } else {
      assert (Ones(n) + s)[1..] == Ones(n - 1) + s;
      LeadingOnesOf(n - 1, s);
    }
  }

  lemma {:induction false} SplitOnes(s: seq<Ascii>)
    ensures var n := LeadingOnes(s); s == Ones(n) + s[n..] && (n < |s| ==> s[n] != '1')
  {
    if s != [] && s[0] == '1' {
      SplitOnes(s[1..]);
      var n := LeadingOnes(s[1..]);
      assert s == ['1'] + s[1..] && Ones(n + 1) == ['1'] + Ones(n) && s[1..][n..] == s[n + 1..];
    } else {
      assert s == Ones(0) + s[0..];
    }
  }

  /** The letter of a digit is '1' only for the digit zero. */
  lemma OneIsZero(d: nat)
    requires d < 58
    ensures Letter(d) == '1' <==> d == 0
  {
    DigitOfLetter(d);
    DigitOfLetter(0);
  }

  /**
    The text of a byte string reads as the number of its bytes, behind as many ones as there are zero bytes in
    front.
  */
  lemma EncodedReads(x: seq<Byte>)
    ensures InAlphabet(Encoded(x)) && LeadingOnes(Encoded(x)) == LeadingZeros(x) && Number(Encoded(x)) == Value(256, x)
  {
    var v := Value(256, x);
    ValueOfDigits(58, v);
    var digits := Digits(58, v);
    var text := Text(digits);
    CodesOfText(digits);
    if v > 0 { OneIsZero(digits[0]); }
    LeadingOnesOf(LeadingZeros(x), text);
    assert Encoded(x)[LeadingZeros(x)..] == text;
    DigitOfLetter(0);
    assert Digit('1') == 0;
    forall c | c in Encoded(x) ensures Digit(c) >= 0 {
      assert c in Ones(LeadingZeros(x)) || c in text;
    }
  }

  /** The digit ten is a small b. */
  lemma TenIsSmallB()
    ensures Letter(10) == 'b' && Encoded([10]) == "b" && Decoded("b") == [10]
  {
    assert LetterRow(1)[2] == 'b';
    OneDigit();
    DecodeEncode([10]);
    hide LetterRow, DigitRow, Value, Digits, Decoded;
    assert Ones(0) + Text([10]) == "b";
  }

  lemma OneDigit()
    ensures Value(256, [10]) == 10 && Digits(58, 10) == [10] && LeadingZeros([10]) == 0
  {
    ValueSnoc(256, [], 10);
    assert [] + [10] == [10] && Digits(58, 0) == [];
  }

  /** Decoding what was encoded gives back every byte string, leading zero bytes included. */
  lemma DecodeEncode(x: seq<Byte>)
    ensures Decoded(Encoded(x)) == x
  {
    EncodedReads(x);
    StripValue(256, x);
    SplitLeading(x);
  }

  /** The bytes of a text hold its number behind as many zero bytes as it has ones in front. */
  lemma DecodedHolds(s: seq<Ascii>)
    ensures LeadingZeros(Decoded(s)) == LeadingOnes(s) && Value(256, Decoded(s)) == Number(s)
  {
    ValueOfDigits(256, Number(s));
    LeadingOf(LeadingOnes(s), Digits(256, Number(s)));
    ValueLeadingZeros(256, LeadingOnes(s), Digits(256, Number(s)));
  }

  /** Encoding what was decoded gives back every text over the alphabet. */
  lemma EncodeDecode(s: seq<Ascii>)
    requires InAlphabet(s)
    ensures Encoded(Decoded(s)) == s
  {
    DecodedHolds(s);
    SplitOnes(s);
    var rest := s[LeadingOnes(s)..];
    TextOfCodes(rest);
    if rest != [] { OneIsZero(Codes(rest)[0]); }
    DigitsOfValue(58, Codes(rest));
  }

  /** A text decodes to something that encodes back to it exactly when it is over the alphabet. */
  lemma RoundTripExactly(s: seq<Ascii>)
    ensures Encoded(Decoded(s)) == s <==> InAlphabet(s)
  {
    if InAlphabet(s) { EncodeDecode(s); } else { EncodedReads(Decoded(s)); }
  }

  /** Decode gives what the decoder over big numbers gives exactly for the texts over the alphabet. */
  lemma DecodersAgree(s: seq<Ascii>)
    ensures Decoded(s) == OldDecoded(s) <==> InAlphabet(s)
  {
    SplitOnes(s);
    var n := LeadingOnes(s);
    if InAlphabet(s[n..]) {
      DigitOfLetter(0);
      forall c | c in s ensures Digit(c) >= 0 { assert c in Ones(n) || c in s[n..]; }
    } else {
      assert s[n] != '1';
      NotOne(s[n]);
      ValuePositive(58, Codes(s[n..]));
      ValueOfDigits(256, Number(s));
    }
  }

  lemma NotOne(c: Ascii)
    requires c != '1'
    ensures Code(c) != 0
  {
    LetterOfDigit(c);
    OneIsZero(0);
  }
}
