/** Which alphabets the bases have, and the examples of section 10 of RFC 4648 that fix the order of the bits. */
module BaseNExamples {
  import opened Bytes
  import opened Bits
  import opened BaseN

  // ---------- The alphabets ----------

  lemma Alphabet16(d: nat)
    requires d < 16
    ensures Encode16(d) as int == if d < 10 then 48 + d else 87 + d
  {
  }

  /** Capital letters are read like small ones, and nothing else is read. */
  lemma ReadsEitherCase(c: char)
    ensures Decode16(c) >= 0 <==> '0' <= c <= '9' || 'A' <= c <= 'F' || 'a' <= c <= 'f'
    ensures 'A' <= c <= 'F' ==> Decode16(c) == Decode16((c as int + 32) as char)
  {
  }

  lemma Row32Is(row: nat, k: nat)
    requires row < 2 && k < 16
    ensures Row32(row)[k] as int == if 16 * row + k < 26 then 65 + 16 * row + k else 24 + 16 * row + k
  {
    match row { case 0 => case 1 => }
  }

  /** Table 3 of RFC 4648: the capital letters, and the digits from two to seven. */
  lemma Alphabet32(d: nat)
    requires d < 32
    ensures Encode32(d) as int == if d < 26 then 65 + d else 24 + d
  {
    Row32Is(d / 16, d % 16);
    hide Row32;
  }

  function Code64(d: nat): nat {
    if d < 26 then 65 + d else if d < 52 then 71 + d else if d < 62 then d - 4 else if d == 62 then 43 else 47
  }

  lemma Row64Low(row: nat, k: nat)
    requires row < 2 && k < 16
    ensures Row64(row)[k] as int == Code64(16 * row + k)
  {
    match row { case 0 => case 1 => }
  }

  lemma Row64High(row: nat, k: nat)
    requires 2 <= row < 4 && k < 16
    ensures Row64(row)[k] as int == Code64(16 * row + k)
  {
    match row { case 2 => case 3 => }
  }

  /** Table 1: capital letters, small letters, digits, plus and slash. */
  lemma Alphabet64(d: nat)
    requires d < 64
    ensures d < 26 ==> Encode64(d) as int == 'A' as int + d
    ensures 26 <= d < 52 ==> Encode64(d) as int == 'a' as int + (d - 26)
    ensures 52 <= d < 62 ==> Encode64(d) as int == '0' as int + (d - 52)
    ensures d == 62 ==> Encode64(d) == '+'
    ensures d == 63 ==> Encode64(d) == '/'
  {
    if d < 32 { Row64Low(d / 16, d % 16); } else { Row64High(d / 16, d % 16); }
    hide Row64;
  }

  // ---------- Section 10 ----------

  lemma More(t: Traits, s: seq<bool>, pos: nat, limit: nat)
    requires 0 < t.groupLength && limit + t.groupLength <= |s| + 1 && pos < limit
    ensures TextFrom(t, s, pos, limit) == [CharAt(t, s, pos)] + TextFrom(t, s, pos + t.groupLength, limit)
  {
  }

  lemma Last(t: Traits, s: seq<bool>, pos: nat, limit: nat, n: nat)
    requires 0 < t.groupLength && limit + t.groupLength <= |s| + 1 && limit <= pos && PadCount(t.groupLength, pos) == n
    ensures TextFrom(t, s, pos, limit) == EqualSigns(n)
  {
  }

  lemma Extracts64()
    ensures ExtractPartial(0x66, 0, 6) == 25 && ExtractOverlapping(0x66, 0x6F, 6, 6) == 38
    ensures ExtractOverlapping(0x6F, 0, 4, 6) == 60
  {
  }

  const FO: seq<Byte> := [0x66, 0x6F]

  lemma Chars64()
    ensures var s := Stream(FO);
      CharAt(BASE64, s, 0) == 'Z' && CharAt(BASE64, s, 6) == 'm' && CharAt(BASE64, s, 12) == '8'
  {
    hide Stream, Slice, Num, Encode64, ExtractPartial, ExtractOverlapping;
    Extracts64();
    GroupWithin(FO, 0, 0, 6);
    GroupAcross(FO, 0, 6, 6);
    GroupAcross(FO, 1, 4, 6);
    Alphabet64(25);
    Alphabet64(38);
    Alphabet64(60);
  }

  /** "fo" in base 64: all three kinds of groups, and an equal sign. */
  lemma FoInBase64()
    ensures Encoded(BASE64, FO) == "Zm8="
  {
    hide TextFrom, Stream, CharAt, PadCount;
    Chars64();
    Pads();
    More(BASE64, Stream(FO), 0, 16);
    More(BASE64, Stream(FO), 6, 16);
    More(BASE64, Stream(FO), 12, 16);
    Last(BASE64, Stream(FO), 18, 16, 1);
    assert EqualSigns(1) == "=";
  }

  lemma Pads()
    ensures PadCount(6, 18) == 1 && PadCount(5, 20) == 4
  {
  }

  lemma Extracts32Low()
    ensures ExtractPartial(0x66, 0, 5) == 12 && ExtractOverlapping(0x66, 0x6F, 5, 5) == 25
  {
  }

  lemma Extracts32High()
    ensures ExtractPartial(0x6F, 2, 5) == 23 && ExtractOverlapping(0x6F, 0, 7, 5) == 16
  {
  }

  lemma Chars32()
    ensures var s := Stream(FO);
      && CharAt(BASE32, s, 0) == 'M' && CharAt(BASE32, s, 5) == 'Z'
      && CharAt(BASE32, s, 10) == 'X' && CharAt(BASE32, s, 15) == 'Q'
  {
    hide Stream, Slice, Num, Encode32, ExtractPartial, ExtractOverlapping;
    Extracts32Low();
    Extracts32High();
    GroupWithin(FO, 0, 0, 5);
    GroupAcross(FO, 0, 5, 5);
    GroupWithin(FO, 1, 2, 5);
    GroupAcross(FO, 1, 7, 5);
    Alphabet32(12);
    Alphabet32(25);
    Alphabet32(23);
    Alphabet32(16);
  }

  lemma FoInBase32()
    ensures Encoded(BASE32, FO) == "MZXQ===="
  {
    hide TextFrom, Stream, CharAt, PadCount;
    Chars32();
    Pads();
    More(BASE32, Stream(FO), 0, 16);
    More(BASE32, Stream(FO), 5, 16);
    More(BASE32, Stream(FO), 10, 16);
    More(BASE32, Stream(FO), 15, 16);
    Last(BASE32, Stream(FO), 20, 16, 4);
    assert EqualSigns(4) == "====";
  }
}
