/** Public keys as hexadecimal text, which of them are accepted, and what that means for the address cache. */
module PublicKeys {
  import opened Bytes
  import opened AddressCache
  import opened Hex
  import Base58
  import KeyText

  const PUBLIC_KEY_PREFIX: Byte := 0xB0
  const ED25519_LENGTH := 32
  const SM2_LENGTH := 65

  /** The bytes behind the text of a public key. */
  function PublicBytes(signType: Byte, raw: seq<Byte>): (x: seq<Byte>)
    ensures |x| == |raw| + 3
  {
    [PUBLIC_KEY_PREFIX, signType, KeyText.BASE58] + raw
  }

  method GetEncPublicKey(signType: Byte, raw: seq<Byte>) returns (text: string)
    ensures text == HexOf(PublicBytes(signType, raw))
  {
    var bytes: seq<Byte> := [PUBLIC_KEY_PREFIX];
    bytes := bytes + [signType];
    bytes := bytes + [KeyText.BASE58];
    bytes := bytes + raw;
    assert bytes == PublicBytes(signType, raw);
    text := BinToHexString(bytes);
  }

  /** The text is accepted and read as a key of this type and these bytes. */
  predicate ReadAs(text: string, signType: Byte, raw: seq<Byte>) {
    BinOf(text, false) == PublicBytes(signType, raw)
  }

  predicate TypeLength(signType: Byte, n: nat) {
    (signType == KeyText.ED25519 && n == ED25519_LENGTH) || (signType == KeyText.SM2 && n == SM2_LENGTH)
  }

  /** The text is long enough and begins with 0xB0: then its type is noted, also if it is refused after all. */
  predicate TypeNoted(text: string) {
    |BinOf(text, false)| >= 3 && BinOf(text, false)[0] == PUBLIC_KEY_PREFIX
  }

  /**
    Take a text apart, into a type and bytes that have a value before.  The answer is first whether the
    length is that of the type, and then, written over it, whether the encoding is the one supported.
  */
  method GetPublicKeyElement(text: string, oldType: Byte, oldRaw: seq<Byte>)
      returns (ok: bool, signType: Byte, encodeType: Byte, raw: seq<Byte>)
    ensures ok ==> ReadAs(text, signType, raw) && encodeType == KeyText.BASE58
    ensures !ok ==> raw == oldRaw && forall t: Byte, x: seq<Byte> :: !ReadAs(text, t, x)
    ensures signType == if TypeNoted(text) then BinOf(text, false)[1] else oldType
  {
    ok, signType, encodeType, raw := false, oldType, 0, oldRaw;
    var buff := HexStringToBin(text, false);
    if |buff| < 3 { return; }
    if buff[0] != PUBLIC_KEY_PREFIX { return; }
    signType, encodeType := buff[1], buff[2];
    var datalen := |buff| - 3;
    ok := true;
    if signType == KeyText.ED25519 {
      ok := datalen == ED25519_LENGTH;
    } else if signType == KeyText.SM2 {
      ok := datalen == SM2_LENGTH;
    } else {
      ok := false;
    }
    ok := encodeType == KeyText.BASE58;
    if ok {
      raw := buff[3..];
      assert buff == PublicBytes(signType, raw);
    }
  }

  /** The type and the bytes of a key object made from a text: a refused text leaves no bytes, but often its type. */
  predicate BuiltAs(text: string, signType: Byte, raw: seq<Byte>) {
    if TypeNoted(text) && BinOf(text, false)[2] == KeyText.BASE58 then ReadAs(text, signType, raw)
    else raw == [] && signType == if TypeNoted(text) then BinOf(text, false)[1] else KeyText.ED25519
  }

  /** The constructor of a public key: whether it is valid decides nothing but its flag. */
  method PublicKey(text: string) returns (valid: bool, signType: Byte, raw: seq<Byte>)
    ensures BuiltAs(text, signType, raw)
    ensures valid <==> exists t: Byte, x: seq<Byte> :: ReadAs(text, t, x)
  {
    valid, signType, raw := false, KeyText.ED25519, [];
    var ok, encodeType;
    ok, signType, encodeType, raw := GetPublicKeyElement(text, signType, raw);
    AcceptedExactly(text);
    if ok { valid := true; }
  }

  lemma ReadOnce(text: string, t: Byte, x: seq<Byte>, t': Byte, x': seq<Byte>)
    requires ReadAs(text, t, x) && ReadAs(text, t', x')
    ensures t == t' && x == x'
  {
    var buff := PublicBytes(t, x);
    assert buff[1] == t && buff[3..] == x;
    assert PublicBytes(t', x')[1] == t' && PublicBytes(t', x')[3..] == x';
  }

  /**
    A text is accepted exactly when its bytes begin with 0xB0, any type and the supported encoding:
    so every type and every byte string of any length is read back from its text.
  */
  lemma AcceptedExactly(text: string)
    ensures (exists t: Byte, x: seq<Byte> :: ReadAs(text, t, x))
       <==> var buff := BinOf(text, false); |buff| >= 3 && buff[0] == PUBLIC_KEY_PREFIX && buff[2] == KeyText.BASE58
  {
    var buff := BinOf(text, false);
    if |buff| >= 3 && buff[0] == PUBLIC_KEY_PREFIX && buff[2] == KeyText.BASE58 {
      assert buff == PublicBytes(buff[1], buff[3..]);
      assert ReadAs(text, buff[1], buff[3..]);
    }
  }

  lemma PublicRoundTrip(signType: Byte, raw: seq<Byte>)
    ensures ReadAs(HexOf(PublicBytes(signType, raw)), signType, raw)
    ensures forall t: Byte, x: seq<Byte> ::
      ReadAs(HexOf(PublicBytes(signType, raw)), t, x) ==> t == signType && x == raw
  {
    var text := HexOf(PublicBytes(signType, raw));
    HexRoundTrip(PublicBytes(signType, raw), false);
    forall t: Byte, x: seq<Byte> | ReadAs(text, t, x) ensures t == signType && x == raw {
      ReadOnce(text, t, x, signType, raw);
    }
  }

  // ---------- The cache, for keys that were read from texts ----------

  predicate ReadAsKey(text: string, key: Key) {
    ReadAs(text, key.kind as int, key.raw)
  }

  ghost predicate FromText(key: Key) {
    exists text: string :: ReadAsKey(text, key)
  }

  predicate LengthOfType(key: Key) {
    TypeLength(key.kind as int, |key.raw|)
  }

  /** Every key of any kind and any length is read from some text. */
  lemma EveryKeyRead(key: Key)
    ensures FromText(key)
  {
    PublicRoundTrip(key.kind as int, key.raw);
    assert ReadAsKey(HexOf(PublicBytes(key.kind as int, key.raw)), key);
  }

  /** If the length were not written over, the keys that are accepted would always be answered with their addresses. */
  lemma CheckedLengthsAnswered(address: Key -> Text, hash: Key -> seq<Byte>, admitted: Key -> bool)
    requires Addresses(address, hash) && forall k :: admitted(k) <==> FromText(k) && LengthOfType(k)
    ensures !exists run, s, t :: WrongAnswer(address, admitted, run, s, t)
  {
    KindInAddress(address, hash, admitted);
    RightExactly(address, admitted);
  }

  predicate BuiltAsKey(text: string, key: Key) {
    BuiltAs(text, key.kind as int, key.raw)
  }

  /** The text is refused, or accepted with the length of its type. */
  ghost predicate CheckedBuild(key: Key) {
    exists text: string :: BuiltAsKey(text, key) && (ReadAsKey(text, key) ==> LengthOfType(key))
  }

  lemma RefusedBuilt(kind: char)
    requires kind in {'e', 'z'}
    ensures CheckedBuild(Key(kind, []))
  {
    var bytes: seq<Byte> := [PUBLIC_KEY_PREFIX, kind as int, 0];
    var text := HexOf(bytes);
    HexRoundTrip(bytes, false);
    assert PublicBytes(kind as int, [])[2] == KeyText.BASE58;
    assert BuiltAsKey(text, Key(kind, [])) && !ReadAsKey(text, Key(kind, []));
  }

  /**
    But the objects made from refused texts are asked for addresses as well: with their types and no
    bytes, two of them give a wrong answer even if the length of every accepted one is right.
  */
  lemma RefusedConfused(address: Key -> Text, hash: Key -> seq<Byte>, admitted: Key -> bool)
    requires Addresses(address, hash) && forall k :: admitted(k) <==> CheckedBuild(k)
    ensures exists run, s, t :: WrongAnswer(address, admitted, run, s, t)
  {
    RefusedBuilt('e');
    RefusedBuilt('z');
    KindInAddress(address, hash, admitted);
    assert Key('e', []).raw == Key('z', []).raw;
    RightExactly(address, admitted);
  }

  /** As it is, two accepted texts of 32 bytes, one of either type, are enough for a wrong answer. */
  lemma AnyLengthConfused(address: Key -> Text, hash: Key -> seq<Byte>, admitted: Key -> bool)
    requires Addresses(address, hash) && forall k :: admitted(k) <==> FromText(k)
    ensures exists run, s, t :: WrongAnswer(address, admitted, run, s, t)
  {
    var raw: seq<Byte> := seq(ED25519_LENGTH, i => 0);
    EveryKeyRead(Key('e', raw));
    EveryKeyRead(Key('z', raw));
    KindInAddress(address, hash, admitted);
    assert Key('e', raw).raw == Key('z', raw).raw;
    RightExactly(address, admitted);
  }

  // ---------- What the texts look like ----------

  /** The text of a public key begins with the prefix, the type and the encoding, as hexadecimal digits. */
  lemma PublicTextBegins(raw: seq<Byte>)
    ensures HexOf(PublicBytes('e' as int, raw)) == "b06566" + HexOf(raw)
    ensures HexOf(PublicBytes('z' as int, raw)) == "b07a66" + HexOf(raw)
  {
    HexParts([0xB0, 0x65, 0x66], raw);
    HexParts([0xB0, 0x7A, 0x66], raw);
    assert HexOf([0xB0, 0x65, 0x66]) == "b06566" && HexOf([0xB0, 0x7A, 0x66]) == "b07a66";
  }

  lemma HexParts(x: seq<Byte>, y: seq<Byte>)
    ensures HexOf(x + y) == HexOf(x) + HexOf(y)
  {
    assert forall i :: 0 <= i < 2 * |x| ==> Nibble(x + y, i) == Nibble(x, i);
    assert forall i :: 0 <= i < 2 * |y| ==> Nibble(x + y, 2 * |x| + i) == Nibble(y, i);
  }

  /** The reader of addresses recognises the address of a key, with its types and the hash less twelve bytes. */
  lemma AddressRecognised(hash: Key -> seq<Byte>, key: Key)
    requires |hash(key)| == 32 && key.kind != ':'
    ensures AddressOf(hash, key) == "did:bid:" + [key.kind, 'f'] + Base58.Encoded(hash(key)[10..])
    ensures KeyText.ElementOf(AddressOf(hash, key))
         == KeyText.Key(KeyText.KEY_ADDRESS, key.kind as int, 102, hash(key)[12..])
  {
    KeyText.AddressElement(key.kind, hash(key)[10..]);
  }
}
