/** Base 64 as in section 4 of RFC 4648, the way Go's decoders read it: line breaks are skipped and the
    unused bits of the last character are ignored. */
module Base64 {
  import opened Wrappers

  type Byte = x: int | 0 <= x < 256
  type Bytes = seq<Byte>
  type Sextet = x: int | 0 <= x < 64

  const PAD: Byte := 61
  const LF: Byte := 10
  const CR: Byte := 13

  // ------------------------------------------------------------- bytes and sextets

  /** The bits of some bytes in groups of six, the last group filled up with zeros. */
  function Unpack(bs: Bytes): seq<Sextet> {
    if |bs| == 0 then []
    else if |bs| == 1 then [bs[0] / 4, bs[0] % 4 * 16]
    else if |bs| == 2 then [bs[0] / 4, bs[0] % 4 * 16 + bs[1] / 16, bs[1] % 16 * 4]
    else [bs[0] / 4, bs[0] % 4 * 16 + bs[1] / 16, bs[1] % 16 * 4 + bs[2] / 64, bs[2] % 64] + Unpack(bs[3..])
  }

  function First(w: Sextet, x: Sextet): Byte { w * 4 + x / 16 }
  function Second(x: Sextet, y: Sextet): Byte { x % 16 * 16 + y / 4 }
  function Third(y: Sextet, z: Sextet): Byte { y % 4 * 64 + z }

  /** The whole bytes that some sextets make. */
  function Pack(ss: seq<Sextet>): Bytes {
    if |ss| < 2 then []
    else if |ss| == 2 then [First(ss[0], ss[1])]
    else if |ss| == 3 then [First(ss[0], ss[1]), Second(ss[1], ss[2])]
    else [First(ss[0], ss[1]), Second(ss[1], ss[2]), Third(ss[2], ss[3])] + Pack(ss[4..])
  }

  /** The bits of the last sextet that no byte uses are zero. */
  predicate UnusedBitsZero(ss: seq<Sextet>) {
    && (|ss| % 4 == 2 ==> Last(ss) % 16 == 0)
    && (|ss| % 4 == 3 ==> Last(ss) % 4 == 0)
  }

  lemma QuantumPacks(a: Byte, b: Byte, c: Byte)
    ensures var ss := Unpack([a, b, c]);
            |ss| == 4 && First(ss[0], ss[1]) == a && Second(ss[1], ss[2]) == b && Third(ss[2], ss[3]) == c
  {
    assert [a, b, c][3..] == [];
  }

  /** The sextets of one to three bytes are the same bits in the same order: read as one number, they are the
      bytes' number with as many zero bits after it as the last sextet needs. */
  lemma UnpackKeepsBits(a: Byte, b: Byte, c: Byte)
    ensures Number(Unpack([a])) == 16 * a
    ensures Number(Unpack([a, b])) == 4 * (256 * a + b)
    ensures Number(Unpack([a, b, c])) == 256 * (256 * a + b) + c
  {
    QuantumPacks(a, b, c);
    assert Unpack([a, b, c])[..4] == [a / 4, a % 4 * 16 + b / 16, b % 16 * 4 + c / 64, c % 64];
    NumberOf(Unpack([a]));
    NumberOf(Unpack([a, b]));
    NumberOf(Unpack([a, b, c]));
  }

  /** Sextets read as one number, the first one highest. */
  function Number(ss: seq<Sextet>): int {
    if ss == [] then 0 else 64 * Number(ss[..|ss| - 1]) + Last(ss)
  }

  lemma NumberOf(ss: seq<Sextet>)
    requires 2 <= |ss| <= 4
    ensures |ss| == 2 ==> Number(ss) == 64 * ss[0] as int + ss[1]
    ensures |ss| == 3 ==> Number(ss) == 64 * (64 * ss[0] as int + ss[1]) + ss[2]
    ensures |ss| == 4 ==> Number(ss) == 64 * (64 * (64 * ss[0] as int + ss[1]) + ss[2]) + ss[3]
  {
    assert ss[..1][..0] == [] && ss[..2][..1] == ss[..1];
    assert Number(ss[..1]) == ss[0] && Number(ss[..2]) == 64 * ss[0] as int + ss[1];
    if |ss| > 2 {
      assert ss[..3][..2] == ss[..2];
      assert Number(ss[..3]) == 64 * Number(ss[..2]) + ss[2];
    }
    assert ss[..|ss|] == ss;
  }

  lemma {:induction false} PackUnpack(bs: Bytes)
    ensures Pack(Unpack(bs)) == bs
  {
    if |bs| > 2 {
      var ss := Unpack(bs);
      PackUnpack(bs[3..]);
      QuantumPacks(bs[0], bs[1], bs[2]);
      assert [bs[0], bs[1], bs[2]][3..] == [];
      assert ss[..4] == Unpack([bs[0], bs[1], bs[2]]);
      assert ss[4..] == Unpack(bs[3..]);
      assert bs == [bs[0], bs[1], bs[2]] + bs[3..];
    }
  }

  lemma {:induction false} UnpackShape(bs: Bytes)
    ensures |Unpack(bs)| % 4 != 1 && UnusedBitsZero(Unpack(bs))
    ensures |Unpack(bs)| % 4 == 0 <==> |bs| % 3 == 0
    ensures Unpack(bs) == [] <==> bs == []
  {
    if |bs| > 2 {
      UnpackShape(bs[3..]);
      assert |Unpack(bs)| == |Unpack(bs[3..])| + 4 && |bs| == |bs[3..]| + 3;
      if Unpack(bs[3..]) != [] {
        assert Last(Unpack(bs)) == Last(Unpack(bs[3..]));
      }
    }
  }

  lemma {:induction false} UnpackPack(ss: seq<Sextet>)
    requires |ss| % 4 != 1 && UnusedBitsZero(ss)
    ensures Unpack(Pack(ss)) == ss
  {
    if |ss| <= 3 {
      TailUnpacks(ss);
    } else {
      assert UnusedBitsZero(ss[4..]);
      UnpackPack(ss[4..]);
      StepUnpacks(ss[0], ss[1], ss[2], ss[3], Pack(ss[4..]));
      assert ss == [ss[0], ss[1], ss[2], ss[3]] + ss[4..];
    }
  }

  lemma UnpackStep(a: Byte, b: Byte, c: Byte, rest: Bytes, w: Sextet, x: Sextet, y: Sextet, z: Sextet)
    requires a / 4 == w && a % 4 * 16 + b / 16 == x && b % 16 * 4 + c / 64 == y && c % 64 == z
    ensures Unpack([a, b, c] + rest) == [w, x, y, z] + Unpack(rest)
  {
    var bs := [a, b, c] + rest;
    assert bs[0] == a && bs[1] == b && bs[2] == c && bs[3..] == rest;
  }

  lemma StepUnpacks(w: Sextet, x: Sextet, y: Sextet, z: Sextet, rest: Bytes)
    ensures Unpack([First(w, x), Second(x, y), Third(y, z)] + rest) == [w, x, y, z] + Unpack(rest)
  {
    QuantumUnpacks(w, x, y, z);
    UnpackStep(First(w, x), Second(x, y), Third(y, z), rest, w, x, y, z);
  }

  lemma TwoUnpack(w: Sextet, x: Sextet)
    requires x % 16 == 0
    ensures Unpack([First(w, x)]) == [w, x]
  {
    var a := First(w, x);
    assert a / 4 == w && a % 4 * 16 == x;
  }

  lemma ThreeUnpack(w: Sextet, x: Sextet, y: Sextet)
    requires y % 4 == 0
    ensures Unpack([First(w, x), Second(x, y)]) == [w, x, y]
  {
    var a, b := First(w, x), Second(x, y);
    QuantumUnpacks(w, x, y, 0);
    assert b % 16 * 4 == y;
  }

  lemma TailUnpacks(ss: seq<Sextet>)
    requires |ss| <= 3 && |ss| != 1 && UnusedBitsZero(ss)
    ensures Unpack(Pack(ss)) == ss
  {
    if |ss| == 2 {
      assert ss == [ss[0], ss[1]];
      TwoUnpack(ss[0], ss[1]);
    } else if |ss| == 3 {
      assert ss == [ss[0], ss[1], ss[2]];
      ThreeUnpack(ss[0], ss[1], ss[2]);
    }
  }

  lemma QuantumUnpacks(w: Sextet, x: Sextet, y: Sextet, z: Sextet)
    ensures var a, b, c := First(w, x), Second(x, y), Third(y, z);
            a / 4 == w && a % 4 * 16 + b / 16 == x && b % 16 * 4 + c / 64 == y && c % 64 == z
  {
  }

  // ----------------------------------------------------------- sextets and letters

  function Char(v: Sextet): Byte {
    if v < 26 then 65 + v
    else if v < 52 then 97 + (v - 26)
    else if v < 62 then 48 + (v - 52)
    else if v == 62 then 43
    else 47
  }

  /** The alphabet of table 1 of RFC 4648. */
  lemma Letters(v: Sextet)
    ensures v < 26 ==> Char(v) == 'A' as int + v
    ensures 26 <= v < 52 ==> Char(v) == 'a' as int + v - 26
    ensures 52 <= v < 62 ==> Char(v) == '0' as int + v - 52
    ensures v == 62 ==> Char(v) == '+' as int
    ensures v == 63 ==> Char(v) == '/' as int
  {
  }

  function Value(c: Byte): (r: Option<Sextet>)
    ensures r.Some? ==> Char(r.value) == c
  {
    if 65 <= c < 91 then Some(c - 65)
    else if 97 <= c < 123 then Some(c - 97 + 26)
    else if 48 <= c < 58 then Some(c - 48 + 52)
    else if c == 43 then Some(62)
    else if c == 47 then Some(63)
    else None
  }

  lemma ValueOfChar(v: Sextet)
    ensures Value(Char(v)) == Some(v) && Char(v) != PAD
  {
  }

  function Spell(ss: seq<Sextet>): (s: Bytes)
    ensures |s| == |ss| && forall i :: 0 <= i < |ss| ==> s[i] == Char(ss[i])
  {
    seq(|ss|, i requires 0 <= i < |ss| => Char(ss[i]))
  }

  /** The values of the leading letters of a text. */
  function Read(s: Bytes): (ss: seq<Sextet>)
    ensures |ss| <= |s| && Spell(ss) == s[..|ss|]
    ensures |ss| < |s| ==> Value(s[|ss|]).None?
  {
    if s == [] || Value(s[0]).None? then [] else [Value(s[0]).value] + Read(s[1..])
  }

  lemma {:induction false} ReadSpell(ss: seq<Sextet>, rest: Bytes)
    requires rest != [] ==> Value(rest[0]).None?
    ensures Read(Spell(ss) + rest) == ss
  {
    var s := Spell(ss) + rest;
    if ss == [] {
      assert s == rest;
    } else {
      ValueOfChar(ss[0]);
      assert s[1..] == Spell(ss[1..]) + rest;
      ReadSpell(ss[1..], rest);
    }
  }

  // ---------------------------------------------------------------------- encoding

  function Padding(n: nat): Bytes {
    if n % 4 == 2 then [PAD, PAD] else if n % 4 == 3 then [PAD] else []
  }

  /** With padding (`StdEncoding`) or without (`RawStdEncoding`). */
  function Encode(padded: bool, bs: Bytes): Bytes {
    Spell(Unpack(bs)) + (if padded then Padding(|Unpack(bs)|) else [])
  }

  /** Decoding text without line breaks; `None` is a corrupt input. */
  function DecodeText(padded: bool, s: Bytes): Option<Bytes> {
    var ss := Read(s);
    if |ss| % 4 != 1 && s[|ss|..] == (if padded then Padding(|ss|) else []) then Some(Pack(ss)) else None
  }

  function SkipBreaks(s: Bytes): (r: Bytes)
    ensures LF !in r && CR !in r
    ensures forall c :: c in s && c != LF && c != CR ==> c in r
  {
    if s == [] then [] else if s[0] == LF || s[0] == CR then SkipBreaks(s[1..]) else [s[0]] + SkipBreaks(s[1..])
  }

  /** `DecodeString`. */
  function Decode(padded: bool, s: Bytes): Option<Bytes> {
    DecodeText(padded, SkipBreaks(s))
  }

  lemma ReadEncode(padded: bool, bs: Bytes)
    ensures Read(Encode(padded, bs)) == Unpack(bs)
  {
    ReadSpell(Unpack(bs), if padded then Padding(|Unpack(bs)|) else []);
  }

  lemma DecodeEncode(padded: bool, bs: Bytes)
    ensures DecodeText(padded, Encode(padded, bs)) == Some(bs)
  {
    ReadEncode(padded, bs);
    UnpackShape(bs);
    PackUnpack(bs);
  }

  lemma EncodeDecode(padded: bool, s: Bytes, bs: Bytes)
    requires DecodeText(padded, s) == Some(bs) && UnusedBitsZero(Read(s))
    ensures Encode(padded, bs) == s
  {
    UnpackPack(Read(s));
    assert s == s[..|Read(s)|] + s[|Read(s)|..];
  }

  /** Encoding is the exact inverse of decoding on the texts whose unused bits are zero. */
  lemma DecodesExactlyItsEncoding(padded: bool, s: Bytes, bs: Bytes)
    ensures DecodeText(padded, s) == Some(bs) && UnusedBitsZero(Read(s)) <==> s == Encode(padded, bs)
  {
    if s == Encode(padded, bs) {
      DecodeEncode(padded, bs);
      ReadEncode(padded, bs);
      UnpackShape(bs);
    } else if DecodeText(padded, s) == Some(bs) && UnusedBitsZero(Read(s)) {
      EncodeDecode(padded, s, bs);
    }
  }
}
