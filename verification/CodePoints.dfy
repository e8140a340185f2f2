/**
  What valid UTF-8 is: exactly the encodings of sequences of code points, by the table of
  section 3 of RFC 3629.  The recogniser that shortening relies on accepts these and no others.
 */
module CodePoints {
  import opened Truncate

  /** Every code point but the surrogates. */
  predicate Scalar(c: int) { 0 <= c <= 0x10FFFF && !(0xD800 <= c <= 0xDFFF) }

  function Utf8(c: int): (s: Bytes)
    requires Scalar(c)
    ensures |s| == if c <= 0x7F then 1 else if c <= 0x7FF then 2 else if c <= 0xFFFF then 3 else 4
  {
    if c <= 0x7F then [c]
    else if c <= 0x7FF then [0xC0 + c / 64, 0x80 + c % 64]
    else if c <= 0xFFFF then [0xE0 + c / 4096, 0x80 + c / 64 % 64, 0x80 + c % 64]
    else [0xF0 + c / 262144, 0x80 + c / 4096 % 64, 0x80 + c / 64 % 64, 0x80 + c % 64]
  }

  predicate AllScalar(cs: seq<int>) { forall i :: 0 <= i < |cs| ==> Scalar(cs[i]) }

  /** The encodings one after the other. */
  function Utf8All(cs: seq<int>): Bytes
    requires AllScalar(cs)
  {
    if cs == [] then [] else Utf8(cs[0]) + Utf8All(cs[1..])
  }

  lemma ThreeBytes(c: int)
    requires Scalar(c) && 0x7FF < c <= 0xFFFF
    ensures Starts3(Utf8(c)) && !Starts2(Utf8(c))
  {
    var high, middle := c / 4096, c / 64 % 64;
    assert c / 64 == high * 64 + middle;
    assert c == (c / 64) * 64 + c % 64;
  }

  lemma FourBytes(c: int)
    requires Scalar(c) && c > 0xFFFF
    ensures Starts4(Utf8(c)) && !Starts3(Utf8(c)) && !Starts2(Utf8(c))
  {
    var high, second := c / 262144, c / 4096 % 64;
    assert c / 4096 == high * 64 + second;
    assert c == (c / 4096) * 4096 + c % 4096;
  }

  /** The encoding of a code point is recognised as one character. */
  lemma EncodedIsACharacter(c: int)
    requires Scalar(c)
    ensures FirstLength(Utf8(c)) == |Utf8(c)|
  {
    if c <= 0x7F {
    } else if c <= 0x7FF {
      assert c == (c / 64) * 64 + c % 64;
    } else if c <= 0xFFFF {
      ThreeBytes(c);
    } else {
      FourBytes(c);
    }
  }

  /** What a byte carries beside its marker. */
  function Bits(b: Byte, marker: int): int { b as int - marker }

  /** The code point of the first character. */
  function CodePoint(s: Bytes): int
    requires FirstLength(s) > 0
  {
    match FirstLength(s)
    case 1 => s[0]
    case 2 => Bits(s[0], 0xC0) * 64 + Bits(s[1], 0x80)
    case 3 => Bits(s[0], 0xE0) * 4096 + Bits(s[1], 0x80) * 64 + Bits(s[2], 0x80)
    case _ => Bits(s[0], 0xF0) * 262144 + Bits(s[1], 0x80) * 4096 + Bits(s[2], 0x80) * 64 + Bits(s[3], 0x80)
  }

  lemma Digits64(q: int, r: int)
    requires q >= 0 && 0 <= r < 64
    ensures (q * 64 + r) / 64 == q && (q * 64 + r) % 64 == r
  {
  }

  lemma TwoBytesBack(s: Bytes)
    requires FirstLength(s) == 2
    ensures Scalar(CodePoint(s)) && Utf8(CodePoint(s)) == s[..2]
  {
    Digits64(Bits(s[0], 0xC0), Bits(s[1], 0x80));
  }

  lemma ThreeBytesBack(s: Bytes)
    requires FirstLength(s) == 3
    ensures Scalar(CodePoint(s)) && Utf8(CodePoint(s)) == s[..3]
  {
    var c, high := CodePoint(s), Bits(s[0], 0xE0) * 64 + Bits(s[1], 0x80);
    assert c == high * 64 + Bits(s[2], 0x80);
    Digits64(high, Bits(s[2], 0x80));
    Digits64(Bits(s[0], 0xE0), Bits(s[1], 0x80));
    assert c / 4096 == c / 64 / 64;
  }

  lemma FourBytesBack(s: Bytes)
    requires FirstLength(s) == 4
    ensures Scalar(CodePoint(s)) && Utf8(CodePoint(s)) == s[..4]
  {
    var c, top := CodePoint(s), Bits(s[0], 0xF0) * 64 + Bits(s[1], 0x80);
    var high := top * 64 + Bits(s[2], 0x80);
    assert c == high * 64 + Bits(s[3], 0x80);
    Digits64(high, Bits(s[3], 0x80));
    Digits64(top, Bits(s[2], 0x80));
    Digits64(Bits(s[0], 0xF0), Bits(s[1], 0x80));
    assert c / 4096 == c / 64 / 64 && c / 262144 == c / 64 / 64 / 64;
  }

  /** What is recognised as a character is the encoding of a code point. */
  lemma CharacterIsEncoded(s: Bytes)
    requires FirstLength(s) > 0
    ensures Scalar(CodePoint(s)) && s[..FirstLength(s)] == Utf8(CodePoint(s))
  {
    if FirstLength(s) == 2 {
      TwoBytesBack(s);
    } else if FirstLength(s) == 3 {
      ThreeBytesBack(s);
    } else if FirstLength(s) == 4 {
      FourBytesBack(s);
    }
  }

  lemma {:induction false} EncodingIsValid(cs: seq<int>)
    requires AllScalar(cs)
    ensures Valid(Utf8All(cs))
  {
    if cs != [] {
      var first, rest := Utf8(cs[0]), Utf8All(cs[1..]);
      EncodingIsValid(cs[1..]);
      EncodedIsACharacter(cs[0]);
      assert first[..|first|] == first;
      FirstOfPrefix(first, rest);
      assert (first + rest)[|first|..] == rest;
    }
  }

  lemma EncodedFirst(c: int, rest: seq<int>)
    requires Scalar(c) && AllScalar(rest)
    ensures AllScalar([c] + rest) && Utf8All([c] + rest) == Utf8(c) + Utf8All(rest)
  {
    assert ([c] + rest)[1..] == rest;
  }

  lemma FirstCodePoint(s: Bytes) returns (c: int)
    requires FirstLength(s) > 0
    ensures Scalar(c) && s == Utf8(c) + s[FirstLength(s)..]
  {
    c := CodePoint(s);
    CharacterIsEncoded(s);
    assert s == s[..FirstLength(s)] + s[FirstLength(s)..];
  }

  lemma {:induction false} ValidIsEncoded(s: Bytes) returns (cs: seq<int>)
    requires Valid(s)
    ensures AllScalar(cs) && s == Utf8All(cs)
    decreases |s|
  {
    if s == [] {
      cs := [];
    } else {
      var c := FirstCodePoint(s);
      var rest := ValidIsEncoded(s[FirstLength(s)..]);
      EncodedFirst(c, rest);
      cs := [c] + rest;
    }
  }

  /** Bytes are valid exactly when they encode some sequence of code points. */
  lemma ValidIff(s: Bytes)
    ensures Valid(s) <==> exists cs: seq<int> :: AllScalar(cs) && s == Utf8All(cs)
  {
    if Valid(s) {
      var cs := ValidIsEncoded(s);
    } else {
      forall cs: seq<int> | AllScalar(cs)
        ensures s != Utf8All(cs)
      {
        EncodingIsValid(cs);
      }
    }
  }

  // ---- What removing invalid bytes keeps ----

  /** An encoded code point at the front stays, and cleaning goes on behind it. */
  lemma CleaningKeeps(c: int, t: Bytes)
    requires Scalar(c)
    ensures Cleaned(Utf8(c) + t) == Utf8(c) + Cleaned(t)
  {
    EncodedIsACharacter(c);
    var n := |Utf8(c)|;
    assert Utf8(c)[..n] == Utf8(c);
    FirstOfPrefix(Utf8(c), t);
    assert (Utf8(c) + t)[..n] == Utf8(c) && (Utf8(c) + t)[n..] == t;
  }

  lemma StartsWithEncoded(s: Bytes)
    requires FirstLength(s) > 0
    ensures exists c :: Scalar(c) && Utf8(c) <= s
  {
    CharacterIsEncoded(s);
    assert Utf8(CodePoint(s)) <= s;
  }

  /** A byte at which no encoded code point starts goes, it alone, and cleaning goes on behind it. */
  lemma CleaningSkips(b: Byte, t: Bytes)
    requires forall c :: Scalar(c) ==> !(Utf8(c) <= [b] + t)
    ensures Cleaned([b] + t) == Cleaned(t)
  {
    var s := [b] + t;
    assert s[1..] == t;
    if FirstLength(s) > 0 {
      StartsWithEncoded(s);
      assert false;
    }
  }
}
