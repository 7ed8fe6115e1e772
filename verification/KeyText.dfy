/** Private keys and addresses as text, on top of Base58, and the function that takes both apart again. */
module KeyText {
  import opened Arithmetic
  import opened Bytes
  import opened Radix
  import opened Base58

  const ED25519: Byte := 101
  const SM2: Byte := 122
  const BASE58: Byte := 102
  const PRIVATE_KEY_LENGTH := 32
  const ADDRESS_LENGTH := 22
  const ADDRESS_PREFIX: seq<Ascii> := "did:bid:"
  const PRIVATE_KEY_PREFIX: seq<Ascii> := "pri"

  datatype KeyType = KEY_ADDRESS | KEY_PRIVATEKEY

  datatype Element = NoKey | Key(keyType: KeyType, signType: Byte, encodeType: Byte, raw: seq<Byte>)

  predicate StartsWith(text: seq<Ascii>, prefix: seq<Ascii>) {
    |prefix| <= |text| && text[..|prefix|] == prefix
  }

  /** The bytes behind the text of a private key: three that make it begin with "pri", signature type, encoding, key. */
  function PrivateBytes(signType: Byte, raw: seq<Byte>): seq<Byte> {
    [24, 158, 153, signType, BASE58] + raw
  }

  function EncPrivateKey(signType: Byte, raw: seq<Byte>): seq<Ascii> {
    Encoded(PrivateBytes(signType, raw))
  }

  method GetEncPrivateKey(signType: Byte, raw: seq<Byte>) returns (text: seq<Ascii>)
    ensures text == EncPrivateKey(signType, raw)
  {
    var bytes: seq<Byte> := [24, 158, 153];
    bytes := bytes + [signType];
    bytes := bytes + [BASE58];
    bytes := bytes + raw;
    assert bytes == PrivateBytes(signType, raw);
    text := Encode(bytes);
  }

  // ---------- Addresses ----------

  function AddressText(signType: Ascii, encodeType: Ascii, raw: seq<Byte>): seq<Ascii> {
    ADDRESS_PREFIX + [signType, encodeType] + Encoded(raw)
  }

  method EncodeAddress(signType: Ascii, encodeType: Ascii, raw: seq<Byte>) returns (text: seq<Ascii>)
    ensures text == AddressText(signType, encodeType, raw)
  {
    var body: seq<Ascii> := [signType];
    body := body + [encodeType];
    var encoded := Encode(raw);
    body := body + encoded;
    text := ADDRESS_PREFIX + body;
  }

  /** What follows the last colon; the whole text if there is none. */
  function AfterColon(text: seq<Ascii>): (rest: seq<Ascii>)
    ensures |rest| <= |text| && ':' !in rest
  {
    if ':' !in text then text
    else if text[|text| - 1] == ':' then []
    else
      var rest := AfterColon(text[..|text| - 1]);
      assert ':' in text[..|text| - 1];
      rest + [text[|text| - 1]]
  }

  datatype Answer = OutOfRange | Bytes(bytes: seq<Byte>)

  /** A text with fewer than two letters gives nothing; one with fewer than two after its last colon is an error. */
  function DecodeAddress(text: seq<Ascii>): Answer {
    if |text| < 2 then Bytes([])
    else if |AfterColon(text)| < 2 then OutOfRange
    else Bytes(Decoded(AfterColon(text)[2..]))
  }

  // ---------- Taking a text apart ----------

  function ElementOf(text: seq<Ascii>): Element {
    if StartsWith(text, ADDRESS_PREFIX) then
      var body := AfterColon(text);
      var answer := DecodeAddress(body);
      if answer.Bytes? && |answer.bytes| == ADDRESS_LENGTH && |body| >= 2 && body[1] as int == BASE58
      then Key(KEY_ADDRESS, body[0] as int, BASE58, answer.bytes[2..])
      else NoKey
    else if StartsWith(text, PRIVATE_KEY_PREFIX) then
      var bytes := Decoded(text);
      if |bytes| == 37 && bytes[4] == BASE58 then Key(KEY_PRIVATEKEY, bytes[3], BASE58, bytes[5..]) else NoKey
    else NoKey
  }

  method GetKeyElement(text: seq<Ascii>)
      returns (ok: bool, keyType: KeyType, signType: Byte, encodeType: Byte, raw: seq<Byte>)
    ensures ok <==> ElementOf(text).Key?
    ensures ok ==> ElementOf(text) == Key(keyType, signType, encodeType, raw)
  {
    keyType, signType, encodeType, raw := KEY_ADDRESS, 0, 0, [];
    if StartsWith(text, ADDRESS_PREFIX) {
      var body := AfterColon(text);
      assert AfterColon(body) == body;
      if |body| < 2 { return false, keyType, signType, encodeType, raw; }
      var bytes, size := Decode(body[2..]);
      if size != ADDRESS_LENGTH { return false, keyType, signType, encodeType, raw; }
      raw := bytes[2..];
      keyType := KEY_ADDRESS;
      signType, encodeType := body[0] as int, body[1] as int;
      ok := (signType == ED25519 && size == ADDRESS_LENGTH) || (signType == SM2 && size == ADDRESS_LENGTH);
      ok := encodeType == BASE58;
    } else if StartsWith(text, PRIVATE_KEY_PREFIX) {
      var bytes, size := Decode(text);
      if size != 37 { return false, keyType, signType, encodeType, raw; }
      raw := bytes[5..];
      keyType := KEY_PRIVATEKEY;
      signType, encodeType := bytes[3], bytes[4];
      ok := (signType == ED25519 && size - 5 == PRIVATE_KEY_LENGTH)
         || (signType == SM2 && size - 5 == PRIVATE_KEY_LENGTH);
      ok := encodeType == BASE58;
    } else {
      ok := false;
    }
  }

  // ---------- Every private key text begins with "pri" ----------

  /** A number that ends in n digits is the digits of its upper part followed by n more. */
  lemma {:induction false} DigitsSplit(base: nat, top: nat, n: nat, low: nat, v: nat)
    requires base >= 2 && top > 0 && low < Pow(base, n) && v == top * Pow(base, n) + low
    ensures |Digits(base, v)| == |Digits(base, top)| + n && Digits(base, v)[..|Digits(base, top)|] == Digits(base, top)
    decreases n
  {
    if n == 0 {
      assert v == top;
    } else {
      UpperHalf(base, top, n, low, v);
      DigitsSplit(base, top, n - 1, low / base, v / base);
      OneMore(Digits(base, v / base), v % base, |Digits(base, top)|);
    }
  }

  lemma UpperHalf(base: nat, top: nat, n: nat, low: nat, v: nat)
    requires base >= 2 && top > 0 && n > 0 && low < Pow(base, n) && v == top * Pow(base, n) + low
    ensures v > 0 && low / base < Pow(base, n - 1) && v / base == top * Pow(base, n - 1) + low / base
  {
    var p := Pow(base, n - 1);
    PowPositive(base, n - 1);
    QuotientBelow(base, low, p);
    UpperQuotient(base, top, p, low);
    ProductPositive(top, base, p);
  }

  lemma OneMore(s: seq<nat>, d: nat, k: nat)
    requires k <= |s|
    ensures (s + [d])[..k] == s[..k] && |s + [d]| == |s| + 1
  {
  }

  lemma ProductPositive(top: nat, base: nat, p: nat)
    requires top > 0 && base > 0 && p > 0
    ensures top * (base * p) > 0
  {
    assert base * p > 0;
  }

  lemma QuotientBelow(base: nat, low: nat, p: nat)
    requires base >= 2 && low < base * p
    ensures low / base < p
  {
    LastDigit(base, low);
    Multiples(base, low / base - p);
    assert base * (low / base - p) == low / base * base - base * p;
  }

  lemma UpperQuotient(base: nat, top: nat, p: nat, low: nat)
    requires base >= 2
    ensures (top * (base * p) + low) / base == top * p + low / base
  {
    LastDigit(base, low);
    Regroup(top, base, p, low / base, low % base);
    Quotient(top * (base * p) + low, base, top * p + low / base, low % base);
  }

  lemma Quotient(v: nat, base: nat, q: nat, r: nat)
    requires r < base && v == q * base + r
    ensures v / base == q
  {
    DivMod(q, base, r);
  }

  lemma Regroup(top: nat, base: nat, p: nat, k: nat, r: nat)
    ensures (top * p + k) * base + r == top * (base * p) + (k * base + r)
  {
  }

  /** 256^17 as a multiple of 58^23 and of 58^24, to nine places. */
  lemma Ratios()
    ensures 2405667263 * Pow(58, 23) <= 1000000000 * Pow(256, 17) <= 2405667264 * Pow(58, 23)
    ensures 41477021 * Pow(58, 24) <= 1000000000 * Pow(256, 17) <= 41477022 * Pow(58, 24)
  {
    SmallPowers();
    assert Pow(58, 8) == 58 * Pow(58, 7) == 128063081718016;
    PowAdd(58, 8, 8);
    PowAdd(58, 7, 16);
    PowAdd(58, 8, 16);
    PowAdd(256, 2, 2);
    PowAdd(256, 4, 4);
    PowAdd(256, 8, 8);
    PowAdd(256, 1, 16);
  }

  lemma ProductOrder(a: nat, b: nat, c: nat, d: nat)
    requires a <= b && c <= d
    ensures a * c <= b * d
  {
    MulMonotone(a, b, c, d);
  }

  lemma Scaled(m: nat, b: nat, n: nat, c: nat)
    ensures (m * b) * (n * c) == (m * n) * (b * c)
  {
  }

  /** Three bytes decide: the numbers that begin with 24, 158 and 150 to 158 all begin with the digits of "pri". */
  lemma TopOfPrivate(top: nat, w: nat)
    requires 1613462 <= top <= 1613470 && w < Pow(256, 34)
    ensures 160991 * Pow(58, 47) <= top * Pow(256, 34) + w < 160992 * Pow(58, 47)
  {
    TopBounds();
    MulMonotone(1613462, top, Pow(256, 34), Pow(256, 34));
    MulMonotone(top, 1613470, Pow(256, 34), Pow(256, 34));
  }

  lemma TopBounds()
    ensures 160991 * Pow(58, 47) <= 1613462 * Pow(256, 34)
    ensures 1613471 * Pow(256, 34) < 160992 * Pow(58, 47)
  {
    Ratios();
    var a, b, c := Pow(256, 17), Pow(58, 23), Pow(58, 24);
    PowAdd(256, 17, 17);
    PowAdd(58, 23, 24);
    PowPositive(58, 47);
    ProductOrder(2405667263 * b, 1000000000 * a, 41477021 * c, 1000000000 * a);
    ProductOrder(1000000000 * a, 2405667264 * b, 1000000000 * a, 41477022 * c);
    Scaled(2405667263, b, 41477021, c);
    Scaled(2405667264, b, 41477022, c);
    Scaled(1000000000, a, 1000000000, a);
  }

  lemma PriDigits()
    ensures Digits(58, 160991) == [47, 49, 41]
  {
    assert 160991 / 58 == 2775 && 160991 % 58 == 41;
    assert 2775 / 58 == 47 && 2775 % 58 == 49;
    assert 47 / 58 == 0 && 47 % 58 == 47;
    assert Digits(58, 47) == [47] by { assert Digits(58, 0) == []; }
    assert Digits(58, 2775) == [47] + [49];
  }

  lemma PriLetters()
    ensures Letter(47) == 'p' && Letter(49) == 'r' && Letter(41) == 'i'
  {
  }

  /** Bytes whose text begins with "pri": 153 is the third byte the writer uses, and any from 150 to 158 will do. */
  predicate PriBytes(x: seq<Byte>) {
    |x| == 37 && x[0] == 24 && x[1] == 158 && 150 <= x[2] <= 158
  }

  lemma PrivateValue(x: seq<Byte>) returns (w: nat)
    requires PriBytes(x)
    ensures w < Pow(256, 34) && Value(256, x) == (1613312 + x[2]) * Pow(256, 34) + w
  {
    w := Value(256, x[3..]);
    assert x == x[..3] + x[3..];
    ValueAppend(256, x[..3], x[3..]);
    ValueBound(256, x[3..]);
    var third: nat := x[2];
    assert x[..3] == [24, 158, third];
    assert Value(256, [24, 158, third]) == 1613312 + third by {
      ValueSnoc(256, [], 24);
      ValueSnoc(256, [24], 158);
      ValueSnoc(256, [24, 158], third);
      assert [24, 158] + [third] == [24, 158, third] && [24] + [158] == [24, 158] && [] + [24] == [24];
    }
  }

  lemma PrivateDigits(x: seq<Byte>)
    requires PriBytes(x)
    ensures var digits := Digits(58, Value(256, x)); |digits| == 50 && digits[..3] == [47, 49, 41]
  {
    var w := PrivateValue(x);
    TopOfPrivate(1613312 + x[2] as nat, w);
    PriDigits();
    DigitsSplit(58, 160991, 47, Value(256, x) - 160991 * Pow(58, 47), Value(256, x));
  }

  lemma PriText(digits: seq<nat>)
    requires DigitsBelow(58, digits) && |digits| >= 3 && digits[..3] == [47, 49, 41]
    ensures Text(digits)[..3] == PRIVATE_KEY_PREFIX && Text(digits)[0] == 'p'
  {
    PriLetters();
    assert digits[0] == digits[..3][0] && digits[1] == digits[..3][1] && digits[2] == digits[..3][2];
  }

  lemma FirstDiffers(text: seq<Ascii>, prefix: seq<Ascii>)
    requires text != [] && prefix != [] && text[0] != prefix[0]
    ensures !StartsWith(text, prefix)
  {
    if |prefix| <= |text| { assert text[..|prefix|][0] == text[0]; }
  }

  /** Whatever follows the three bytes, a 37-byte key is a text of fifty letters that begins with "pri". */
  lemma BeginsWithPri(x: seq<Byte>)
    requires PriBytes(x)
    ensures |Encoded(x)| == 50 && StartsWith(Encoded(x), PRIVATE_KEY_PREFIX) && !StartsWith(Encoded(x), ADDRESS_PREFIX)
  {
    var digits := Digits(58, Value(256, x));
    PrivateDigits(x);
    ValueOfDigits(58, Value(256, x));
    PriText(digits);
    assert Encoded(x) == Text(digits);
    FirstDiffers(Encoded(x), ADDRESS_PREFIX);
  }

  /** The text of a private key comes apart into the same type, encoding and key, for every signature type. */
  lemma PrivateRoundTrip(signType: Byte, raw: seq<Byte>)
    requires |raw| == PRIVATE_KEY_LENGTH
    ensures ElementOf(EncPrivateKey(signType, raw)) == Key(KEY_PRIVATEKEY, signType, BASE58, raw)
  {
    var x := PrivateBytes(signType, raw);
    BeginsWithPri(x);
    DecodeEncode(x);
  }

  /**
    A text that is taken for a private key is the text of that key exactly when it is over the
    alphabet and its first three bytes are the right ones: they are not looked at.
  */
  lemma PrivateTextExactly(text: seq<Ascii>)
    requires ElementOf(text).Key? && ElementOf(text).keyType == KEY_PRIVATEKEY
    ensures EncPrivateKey(ElementOf(text).signType, ElementOf(text).raw) == text
       <==> InAlphabet(text) && Decoded(text)[..3] == [24, 158, 153]
  {
    var bytes := Decoded(text);
    var x := PrivateBytes(ElementOf(text).signType, ElementOf(text).raw);
    hide Encoded, Decoded, InAlphabet, StartsWith;
    assert bytes == bytes[..3] + [bytes[3]] + [bytes[4]] + bytes[5..];
    if InAlphabet(text) && bytes[..3] == [24, 158, 153] {
      assert x == bytes;
      EncodeDecode(text);
    }
    if Encoded(x) == text {
      EncodedReads(x);
      DecodeEncode(x);
      assert x[..3] == [24, 158, 153];
    }
  }

  /** The first gap: a text with another third byte is taken for the same private key, of every type. */
  lemma WrongPrefixAccepted(third: Byte, signType: Byte, raw: seq<Byte>)
    requires 150 <= third <= 158 && third != 153 && |raw| == PRIVATE_KEY_LENGTH
    ensures var text := Encoded([24, 158, third, signType, BASE58] + raw);
      ElementOf(text) == Key(KEY_PRIVATEKEY, signType, BASE58, raw) && text != EncPrivateKey(signType, raw)
  {
    var x := [24, 158, third, signType, BASE58] + raw;
    BeginsWithPri(x);
    DecodeEncode(x);
    DecodeEncode(PrivateBytes(signType, raw));
    assert x[2] != PrivateBytes(signType, raw)[2];
  }

  lemma CodesSnoc(s: seq<Ascii>, c: Ascii)
    ensures Codes(s + [c]) == Codes(s) + [Code(c)]
  {
    hide Code;
  }

  /** The number of a text, with '0' in place of its last letter: '0' counts as 255. */
  lemma LastReplaced(s: seq<Ascii>, c: Ascii)
    ensures Value(58, Codes(s + ['0'])) == Value(58, Codes(s + [c])) - Code(c) + 255
  {
    CodesSnoc(s, c);
    CodesSnoc(s, '0');
    assert Code('0') == 255;
    hide Code, Codes, Value;
    ValueSnoc(58, Codes(s), Code(c));
    ValueSnoc(58, Codes(s), 255);
  }

  lemma LastByteReplaced(x: seq<Byte>, b: Byte)
    requires x != [] && x[0] != 0
    ensures Digits(256, Value(256, x + [0]) + b) == x + [b]
  {
    hide Value, Digits;
    ValueSnoc(256, x, 0);
    ValueSnoc(256, x, b);
    DigitsOfValue(256, x + [b]);
  }

  lemma DecodedPlain(s: seq<Ascii>)
    requires s != [] && s[0] != '1'
    ensures Decoded(s) == Digits(256, Value(58, Codes(s)))
  {
    assert LeadingOnes(s) == 0 && s[0..] == s;
    var number := Value(58, Codes(s));
    ValueOfDigits(256, number);
    hide Value, Codes, Digits;
    assert Zeros(0) + Digits(256, number) == Digits(256, number);
  }

  lemma EncodedNumber(x: seq<Byte>)
    requires x != [] && x[0] != 0
    ensures InAlphabet(Encoded(x)) && Value(58, Codes(Encoded(x))) == Value(256, x)
  {
    EncodedReads(x);
    var s := Encoded(x);
    assert s[0..] == s;
  }

  lemma CodeOfLast(s: seq<Ascii>, c: Ascii)
    requires InAlphabet(s + [c])
    ensures Code(c) < 58
  {
    assert c in s + [c];
    LetterOfDigit(c);
  }

  /** A text that does not begin with a one, with '0' for its last letter, reads as other bytes. */
  lemma LastLetterWrong(x: seq<Byte>, s: seq<Ascii>, c: Ascii) returns (b: Byte)
    requires x != [] && x[0] != 0 && Encoded(x + [0]) == s + [c] && s != [] && s[0] != '1'
    ensures b > 0 && Decoded(s + ['0']) == x + [b]
  {
    hide *;
    EncodedNumber(x + [0]);
    CodeOfLast(s, c);
    b := 255 - Code(c);
    DecodedPlain(s + ['0']);
    LastReplaced(s, c);
    LastByteReplaced(x, b);
  }

  /**
    The second gap: with '0', which is no letter of the alphabet, in place of its last letter, the text
    of a key that ends in a zero byte is taken for another key of the same type.
  */
  lemma WrongLetterAccepted(signType: Byte, head: seq<Byte>)
    requires |head| == PRIVATE_KEY_LENGTH - 1
    ensures var key := EncPrivateKey(signType, head + [0]);
      && |key| == 50
      && var other := ElementOf(key[..49] + ['0']);
      && other.Key? && other.keyType == KEY_PRIVATEKEY && other.signType == signType
      && |other.raw| == PRIVATE_KEY_LENGTH && other.raw != head + [0]
      && EncPrivateKey(signType, other.raw) != key[..49] + ['0']
  {
    var x := PrivateBytes(signType, head);
    assert x + [0] == PrivateBytes(signType, head + [0]);
    BeginsWithPri(x + [0]);
    var key := Encoded(x + [0]);
    assert key[0] == key[..3][0] && key == key[..49] + [key[49]];
    var b := LastLetterWrong(x, key[..49], key[49]);
    OtherKey(signType, head, b, key[..49] + ['0']);
  }

  lemma OtherKey(signType: Byte, head: seq<Byte>, b: Byte, text: seq<Ascii>)
    requires |head| == PRIVATE_KEY_LENGTH - 1 && |text| == 50 && text[..3] == PRIVATE_KEY_PREFIX && text[49] == '0'
    requires Decoded(text) == PrivateBytes(signType, head) + [b]
    ensures ElementOf(text) == Key(KEY_PRIVATEKEY, signType, BASE58, head + [b])
    ensures EncPrivateKey(signType, head + [b]) != text
  {
    hide Encoded, Decoded, AfterColon;
    assert text[0] == text[..3][0];
    FirstDiffers(text, ADDRESS_PREFIX);
    assert PrivateBytes(signType, head) + [b] == PrivateBytes(signType, head + [b]);
    PrivateTextExactly(text);
    assert Digit('0') == -1;
  }

  // ---------- Addresses round trip ----------

  lemma {:induction false} AfterLastColon(head: seq<Ascii>, rest: seq<Ascii>)
    requires ':' !in rest
    ensures AfterColon(head + [':'] + rest) == rest
    decreases |rest|
  {
    var text := head + [':'] + rest;
    assert text[|head|] == ':';
    if rest != [] {
      var n := |rest| - 1;
      assert text[..|text| - 1] == head + [':'] + rest[..n];
      assert text[|text| - 1] == rest[n];
      AfterLastColon(head, rest[..n]);
      assert (head + [':'] + rest[..n])[|head|] == ':';
      assert rest == rest[..n] + [rest[n]];
    }
  }

  lemma NoColon(s: seq<Ascii>)
    requires InAlphabet(s)
    ensures ':' !in s
  {
    assert Digit(':') == -1;
  }

  lemma AddressBody(signType: Ascii, encodeType: Ascii, raw: seq<Byte>)
    requires signType != ':' && encodeType != ':'
    ensures AfterColon(AddressText(signType, encodeType, raw)) == [signType, encodeType] + Encoded(raw)
  {
    EncodedReads(raw);
    NoColon(Encoded(raw));
    BodyAfterColon([signType, encodeType], Encoded(raw));
  }

  lemma BodyAfterColon(types: seq<Ascii>, text: seq<Ascii>)
    requires ':' !in types && ':' !in text
    ensures AfterColon(ADDRESS_PREFIX + types + text) == types + text
  {
    hide AfterColon;
    AfterLastColon("did:bid", types + text);
    assert ADDRESS_PREFIX == "did:bid" + [':'];
    assert ADDRESS_PREFIX + types + text == "did:bid" + [':'] + (types + text);
  }

  /** An address of any length and any types that are not colons decodes to the bytes it was made of. */
  lemma AddressRoundTrip(signType: Ascii, encodeType: Ascii, raw: seq<Byte>)
    requires signType != ':' && encodeType != ':'
    ensures DecodeAddress(AddressText(signType, encodeType, raw)) == Bytes(raw)
  {
    AddressBody(signType, encodeType, raw);
    assert ([signType, encodeType] + Encoded(raw))[2..] == Encoded(raw);
    DecodeEncode(raw);
  }

  /**
    An address of the usual length is recognised with its types, but what is handed out as its raw
    data lacks the first two bytes of the address: they are cut off once with the types and once more.
  */
  lemma AddressElement(signType: Ascii, raw: seq<Byte>)
    requires signType != ':' && |raw| == ADDRESS_LENGTH
    ensures ElementOf(AddressText(signType, 'f', raw)) == Key(KEY_ADDRESS, signType as int, BASE58, raw[2..])
  {
    var text := AddressText(signType, 'f', raw);
    var body := [signType, 'f'] + Encoded(raw);
    AddressBody(signType, 'f', raw);
    assert text[..8] == ADDRESS_PREFIX;
    assert AfterColon(body) == body;
    assert body[2..] == Encoded(raw);
    DecodeEncode(raw);
  }
}
