/** The "auth" field of a Docker config entry: `encodeDockerConfigFieldAuth` and `decodeDockerConfigFieldAuth`. */
module DockerAuth {
  import opened Wrappers
  import opened Base64

  const COLON: Byte := 58

  datatype Auth = Auth(username: Bytes, password: Bytes)
  datatype Result = Ok(auth: Auth) | CorruptInput | NoColon

  /** ASCII white space. Any other white space makes both decoders fail, so it need not be trimmed. */
  predicate IsSpace(c: Byte) { 9 <= c <= 13 || c == 32 }

  function TrimRight(s: Bytes): Bytes {
    if s == [] || !IsSpace(Last(s)) then s else TrimRight(s[..|s| - 1])
  }

  /** The trimmed field ends in a padding character. */
  predicate EndsPadded(field: Bytes) {
    var t := TrimRight(field);
    t != [] && Last(t) == PAD
  }

  /** `SplitN(s, ":", 2)`: around the first colon, if there is one. */
  function Split(bs: Bytes): (r: Result)
    ensures !r.CorruptInput?
    ensures r.Ok? <==> COLON in bs
    ensures r.Ok? ==> COLON !in r.auth.username && bs == r.auth.username + [COLON] + r.auth.password
  {
    if bs == [] then NoColon
    else if bs[0] == COLON then Ok(Auth([], bs[1..]))
    else
      var r := Split(bs[1..]);
      assert bs == [bs[0]] + bs[1..];
      if r.Ok? then Ok(Auth([bs[0]] + r.auth.username, r.auth.password)) else r
  }

  function DecodeAuth(field: Bytes): Result {
    var decoded := Decode(EndsPadded(field), field);
    if decoded.None? then CorruptInput else Split(decoded.value)
  }

  function Plain(a: Auth): Bytes { a.username + [COLON] + a.password }

  function EncodeAuth(a: Auth): Bytes { Encode(true, Plain(a)) }

  // -------------------------------------------------------------- which decoder

  lemma {:induction false} SkipBreaksAppend(a: Bytes, b: Bytes)
    ensures SkipBreaks(a + b) == SkipBreaks(a) + SkipBreaks(b)
  {
    if a == [] {
      assert a + b == b;
    } else {
      assert (a + b)[1..] == a[1..] + b;
      SkipBreaksAppend(a[1..], b);
    }
  }

  /** Line breaks do not change which decoder is chosen. */
  lemma {:induction false} BreaksDoNotShow(s: Bytes)
    ensures EndsPadded(s) <==> EndsPadded(SkipBreaks(s))
  {
    if s != [] {
      var t, c := s[..|s| - 1], Last(s);
      assert s == t + [c];
      SkipBreaksAppend(t, [c]);
      BreaksDoNotShow(t);
      assert [c][1..] == [];
      if c == LF || c == CR {
        assert SkipBreaks(s) == SkipBreaks(t);
      } else {
        assert SkipBreaks(s) == SkipBreaks(t) + [c];
        assert SkipBreaks(s)[..|SkipBreaks(s)| - 1] == SkipBreaks(t);
      }
    }
  }

  /** Letters of the alphabet and padding. */
  predicate IsText(s: Bytes) {
    forall i :: 0 <= i < |s| ==> Value(s[i]).Some? || s[i] == PAD
  }

  lemma SpelledIsText(ss: seq<Sextet>)
    ensures IsText(Spell(ss)) && PAD !in Spell(ss)
  {
    forall i | 0 <= i < |ss| ensures Value(Spell(ss)[i]).Some? && Spell(ss)[i] != PAD {
      ValueOfChar(ss[i]);
    }
  }

  /** An encoding is text that, with padding, ends in it unless the length is a multiple of 3. */
  lemma EncodedShape(padded: bool, bs: Bytes)
    requires bs != []
    ensures var s := Encode(padded, bs); s != [] && IsText(s) && (Last(s) == PAD <==> padded && |bs| % 3 != 0)
    ensures |bs| % 3 == 0 ==> Encode(true, bs) == Encode(false, bs)
  {
    var ss := Unpack(bs);
    UnpackShape(bs);
    SpelledIsText(ss);
    assert Last(Spell(ss)) in Spell(ss);
  }

  lemma {:induction false} NoBreaks(s: Bytes)
    requires LF !in s && CR !in s
    ensures SkipBreaks(s) == s
  {
    if s != [] {
      NoBreaks(s[1..]);
    }
  }

  lemma EncodedChooses(padded: bool, bs: Bytes)
    requires bs != []
    ensures EndsPadded(Encode(padded, bs)) <==> padded && |bs| % 3 != 0
  {
    EncodedShape(padded, bs);
    var s := Encode(padded, bs);
    assert Value(Last(s)).Some? || Last(s) == PAD;
    assert !IsSpace(Last(s));
  }

  /** Whichever way text was padded and broken into lines, the chosen decoder reads it back. */
  lemma ChosenDecoderReads(padded: bool, bs: Bytes, field: Bytes)
    requires bs != [] && SkipBreaks(field) == Encode(padded, bs)
    ensures Decode(EndsPadded(field), field) == Some(bs)
  {
    BreaksDoNotShow(field);
    EncodedChooses(padded, bs);
    EncodedShape(padded, bs);
    DecodeEncode(true, bs);
    DecodeEncode(false, bs);
  }

  // ------------------------------------------------------------------ round trips

  lemma {:induction false} SplitAtFirstColon(u: Bytes, p: Bytes)
    requires COLON !in u
    ensures Split(u + [COLON] + p) == Ok(Auth(u, p))
  {
    var bs := u + [COLON] + p;
    if u == [] {
      assert bs[1..] == p;
    } else {
      assert bs[1..] == u[1..] + [COLON] + p;
      SplitAtFirstColon(u[1..], p);
      assert u == [u[0]] + u[1..];
    }
  }

  lemma SplitOfPlain(a: Auth)
    ensures Split(Plain(a)) == Ok(a) <==> COLON !in a.username
  {
    if COLON !in a.username {
      SplitAtFirstColon(a.username, a.password);
    }
  }

  /** An encoded user name and password, padded or not and however broken into lines, decodes to the same
      pair if and only if the user name has no colon. */
  lemma AuthRoundTrip(a: Auth, padded: bool, field: Bytes)
    requires SkipBreaks(field) == Encode(padded, Plain(a))
    ensures DecodeAuth(field).Ok?
    ensures DecodeAuth(field) == Ok(a) <==> COLON !in a.username
  {
    ChosenDecoderReads(padded, Plain(a), field);
    SplitOfPlain(a);
    assert COLON in Plain(a) by { assert Plain(a)[|a.username|] == COLON; }
  }

  /** In particular for the field the encoder writes. */
  lemma DecodesWhatIsEncoded(a: Auth)
    ensures DecodeAuth(EncodeAuth(a)) == Ok(a) <==> COLON !in a.username
  {
    EncodedShape(true, Plain(a));
    assert Value(LF).None? && Value(CR).None?;
    NoBreaks(EncodeAuth(a));
    AuthRoundTrip(a, true, EncodeAuth(a));
  }

  /** Conversely, apart from line breaks and unused bits, a field that decodes to a pair is one of its two
      encodings. */
  lemma DecodesOnlyEncodings(field: Bytes, a: Auth)
    requires UnusedBitsZero(Read(SkipBreaks(field)))
    ensures DecodeAuth(field) == Ok(a) <==>
            && COLON !in a.username
            && (SkipBreaks(field) == Encode(true, Plain(a)) || SkipBreaks(field) == Encode(false, Plain(a)))
  {
    if DecodeAuth(field) == Ok(a) {
      DecodesExactlyItsEncoding(EndsPadded(field), SkipBreaks(field), Plain(a));
    } else if SkipBreaks(field) == Encode(true, Plain(a)) {
      AuthRoundTrip(a, true, field);
    } else if SkipBreaks(field) == Encode(false, Plain(a)) {
      AuthRoundTrip(a, false, field);
    }
  }

  /** Unused bits are ignored: "Og==" and "Oh==" both say an empty user name and password. */
  lemma UnusedBitsAreIgnored(canonical: Bytes, other: Bytes)
    requires canonical == [79, 103, PAD, PAD] && other == [79, 104, PAD, PAD]
    ensures DecodeAuth(canonical) == DecodeAuth(other) == Ok(Auth([], []))
  {
    forall s | s == canonical || s == other ensures DecodeAuth(s) == Ok(Auth([], [])) {
      NoBreaks(s);
      assert EndsPadded(s);
      var x := if s == canonical then 32 else 33;
      assert s == Spell([14, x]) + [PAD, PAD];
      ReadSpell([14, x], [PAD, PAD]);
      assert s[2..] == [PAD, PAD];
      assert DecodeText(true, s) == Some([COLON]);
      assert [COLON][1..] == [];
    }
  }
}
