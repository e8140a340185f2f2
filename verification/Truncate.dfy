/**
  Shortening a byte string for a column: at most so many bytes, always valid UTF-8 as
  defined in section 4 of RFC 3629, and nothing lost but the cut character.
 */
module Truncate {
  import opened Outcomes

  type Byte = b: int | 0 <= b < 256

  type Bytes = seq<Byte>

  predicate Tail(b: Byte) { 0x80 <= b <= 0xBF }

  /** A byte that can begin a character, as the backward scan asks. */
  predicate RuneStart(b: Byte) { !Tail(b) }

  predicate Starts2(s: Bytes) { |s| >= 2 && 0xC2 <= s[0] <= 0xDF && Tail(s[1]) }

  predicate Starts3(s: Bytes) {
    && |s| >= 3 && Tail(s[1]) && Tail(s[2])
    && ((s[0] == 0xE0 && s[1] >= 0xA0) || 0xE1 <= s[0] <= 0xEC || (s[0] == 0xED && s[1] <= 0x9F) || 0xEE <= s[0] <= 0xEF)
  }

  predicate Starts4(s: Bytes) {
    && |s| >= 4 && Tail(s[1]) && Tail(s[2]) && Tail(s[3])
    && ((s[0] == 0xF0 && s[1] >= 0x90) || 0xF1 <= s[0] <= 0xF3 || (s[0] == 0xF4 && s[1] <= 0x8F))
  }

  /** The length of the character the bytes start with; zero when they start with none. */
  function FirstLength(s: Bytes): (n: nat)
    ensures n <= |s| && n <= 4
  {
    if s == [] then 0
    else if s[0] <= 0x7F then 1
    else if Starts2(s) then 2
    else if Starts3(s) then 3
    else if Starts4(s) then 4
    else 0
  }

  predicate Valid(s: Bytes)
    decreases |s|
  {
    s == [] || (FirstLength(s) > 0 && Valid(s[FirstLength(s)..]))
  }

  /** Bytes that belong to no character removed. */
  function Cleaned(s: Bytes): Bytes
    decreases |s|
  {
    if s == [] then []
    else if FirstLength(s) == 0 then Cleaned(s[1..])
    else s[..FirstLength(s)] + Cleaned(s[FirstLength(s)..])
  }

  /** The last position up to n that is not inside a character. */
  function Boundary(s: Bytes, n: nat): (b: nat)
    requires n < |s|
    ensures b <= n
  {
    if n == 0 || RuneStart(s[n]) then n else Boundary(s, n - 1)
  }

  function Cut(s: Bytes, maxBytes: int): Bytes {
    if maxBytes <= 0 then [] else if |s| > maxBytes then s[..Boundary(s, maxBytes)] else s
  }

  function Shortened(s: Bytes, maxBytes: int): Bytes {
    if Valid(Cut(s, maxBytes)) then Cut(s, maxBytes) else Cleaned(Cut(s, maxBytes))
  }

  lemma CleanedStep(s: Bytes, i: nat)
    requires i < |s|
    ensures var n := FirstLength(s[i..]);
      Cleaned(s[i..]) == if n == 0 then Cleaned(s[i + 1..]) else s[i..][..n] + Cleaned(s[i + n..])
  {
    var rest, n := s[i..], FirstLength(s[i..]);
    assert rest[1..] == s[i + 1..] && rest[n..] == s[i + n..];
  }

  lemma MovedOver(r: Bytes, first: Bytes, rest: Bytes, left: Bytes, whole: Bytes)
    requires r + left == whole && left == first + rest
    ensures (r + first) + rest == whole
  {
    Regroup(r, first, rest);
  }

  /** Removes the bytes of no character one by one. */
  method ToValid(s: Bytes) returns (r: Bytes)
    ensures r == Cleaned(s)
  {
    r := [];
    var i := 0;
    ghost var whole := Cleaned(s);
    assert s[0..] == s && [] + whole == whole;
    while i < |s|
      invariant 0 <= i <= |s| && r + Cleaned(s[i..]) == whole
      decreases |s| - i
    {
      var n := FirstLength(s[i..]);
      CleanedStep(s, i);
      if n == 0 {
        i := i + 1;
      } else {
        MovedOver(r, s[i..][..n], Cleaned(s[i + n..]), Cleaned(s[i..]), whole);
        r := r + s[i..][..n];
        i := i + n;
      }
    }
    assert r + [] == r;
  }

  method Shorten(s: Bytes, maxBytes: int) returns (r: Bytes)
    ensures r == Shortened(s, maxBytes)
  {
    if maxBytes <= 0 {
      return [];
    }
    var t := s;
    if |t| > maxBytes {
      var end := maxBytes;
      while end > 0 && !RuneStart(s[end])
        invariant 0 <= end <= maxBytes && Boundary(s, end) == Boundary(s, maxBytes)
      {
        end := end - 1;
      }
      t := t[..end];
    }
    if Valid(t) {
      return t;
    }
    r := ToValid(t);
  }

  // ---- What comes out ----

  /** A character is recognised by its own bytes alone. */
  lemma FirstOfPrefix(s: Bytes, t: Bytes)
    requires FirstLength(s) > 0
    ensures FirstLength(s[..FirstLength(s)] + t) == FirstLength(s)
  {
    var n := FirstLength(s);
    var u := s[..n] + t;
    assert forall i :: 0 <= i < n ==> u[i] == s[i];
  }

  lemma {:induction false} CleanedIsValid(s: Bytes)
    ensures Valid(Cleaned(s)) && |Cleaned(s)| <= |s|
    decreases |s|
  {
    if s != [] {
      var n := FirstLength(s);
      if n == 0 {
        CleanedIsValid(s[1..]);
      } else {
        CleanedIsValid(s[n..]);
        FirstOfPrefix(s, Cleaned(s[n..]));
        var u := s[..n] + Cleaned(s[n..]);
        assert u[n..] == Cleaned(s[n..]);
      }
    }
  }

  /** Cleaning keeps valid text as it is, so the validity test only saves work. */
  lemma {:induction false} CleanedKeepsValid(s: Bytes)
    requires Valid(s)
    ensures Cleaned(s) == s
    decreases |s|
  {
    if s != [] {
      CleanedKeepsValid(s[FirstLength(s)..]);
      assert s[..FirstLength(s)] + s[FirstLength(s)..] == s;
    }
  }

  lemma {:induction false} BoundaryIsBelow(s: Bytes, n: nat)
    requires n < |s|
    ensures forall i :: Boundary(s, n) < i <= n ==> Tail(s[i])
    ensures Boundary(s, n) == 0 || RuneStart(s[Boundary(s, n)])
  {
    if n > 0 && !RuneStart(s[n]) {
      BoundaryIsBelow(s, n - 1);
    }
  }

  /** Whatever comes in, the result is valid UTF-8 of at most maxBytes bytes. */
  lemma ShortenedIsValid(s: Bytes, maxBytes: int)
    ensures Valid(Shortened(s, maxBytes))
    ensures |Shortened(s, maxBytes)| <= if maxBytes <= 0 then 0 else maxBytes
  {
    if maxBytes > 0 && |s| > maxBytes {
      BoundaryIsBelow(s, maxBytes);
    }
    CleanedIsValid(Cut(s, maxBytes));
  }

  lemma FirstBytes(s: Bytes)
    requires FirstLength(s) > 0
    ensures RuneStart(s[0]) && forall i :: 0 < i < FirstLength(s) ==> Tail(s[i])
  {
  }

  lemma Slices(s: Bytes, k: nat, n: nat)
    requires k <= n <= |s|
    ensures s[..n] == s[..k] + s[k..n] && s[..n][k..] == s[k..][..n - k]
    ensures n < |s| ==> s[k..][n - k] == s[n]
  {
  }

  /** In valid text a prefix is valid exactly when it stops at the start of a character. */
  lemma {:induction false} ValidPrefixIff(s: Bytes, n: nat)
    requires Valid(s) && n <= |s|
    ensures Valid(s[..n]) <==> n == |s| || RuneStart(s[n])
    decreases |s|
  {
    if s != [] && n > 0 {
      var k := FirstLength(s);
      FirstBytes(s);
      if n < k {
        assert Tail(s[n]);
        ShortCharacter(s, n);
      } else {
        FirstOfPrefix(s, s[k..n]);
        Slices(s, k, n);
        ValidPrefixIff(s[k..], n - k);
      }
    } else if s != [] {
      FirstBytes(s);
    }
  }

  /** Part of a character is no text. */
  lemma ShortCharacter(s: Bytes, n: nat)
    requires 0 < n < FirstLength(s)
    ensures !Valid(s[..n])
  {
    var t := s[..n];
    assert t[0] == s[0];
  }

  /** Among any four bytes of valid text that follow each other, one starts a character. */
  lemma {:induction false} NoFourTails(s: Bytes, i: nat)
    requires Valid(s) && i + 3 < |s|
    ensures RuneStart(s[i]) || RuneStart(s[i + 1]) || RuneStart(s[i + 2]) || RuneStart(s[i + 3])
    decreases |s|
  {
    var k := FirstLength(s);
    FirstBytes(s);
    if i >= k {
      NoFourTails(s[k..], i - k);
    } else if k <= i + 3 {
      assert Valid(s[k..]) && s[k..] != [];
      FirstBytes(s[k..]);
      assert s[k..][0] == s[k];
    }
  }

  /** On valid text the result is a prefix, whole when it fits, and otherwise fewer than four bytes short of the bound. */
  lemma ShortenedKeepsValidText(s: Bytes, maxBytes: int)
    requires Valid(s) && maxBytes > 0
    ensures Shortened(s, maxBytes) <= s
    ensures if |s| <= maxBytes then Shortened(s, maxBytes) == s else maxBytes - 4 < |Shortened(s, maxBytes)| <= maxBytes
  {
    if |s| > maxBytes {
      var end := Boundary(s, maxBytes);
      BoundaryIsBelow(s, maxBytes);
      FirstBytes(s);
      ValidPrefixIff(s, end);
      if end + 4 <= maxBytes {
        NoFourTails(s, end + 1);
      }
    }
  }

  /** Shortening again to the same bound changes nothing. */
  lemma ShortenedTwice(s: Bytes, maxBytes: int)
    ensures Shortened(Shortened(s, maxBytes), maxBytes) == Shortened(s, maxBytes)
  {
    ShortenedIsValid(s, maxBytes);
  }

  lemma CleanedFirst(s: Bytes, t: Bytes)
    requires FirstLength(s) > 0
    ensures Cleaned(s[..FirstLength(s)] + t) == s[..FirstLength(s)] + Cleaned(t)
  {
    var c := s[..FirstLength(s)];
    FirstOfPrefix(s, t);
    assert (c + t)[..|c|] == c && (c + t)[|c|..] == t;
  }

  lemma PutBack(s: Bytes, n: nat, t: Bytes)
    requires n <= |s|
    ensures s[..n] + (s[n..] + t) == s + t
  {
    assert s[..n] + s[n..] == s;
  }

  /** Text that is not valid loses only bytes that belong to no character: what is left is its characters in order. */
  lemma {:induction false} CleanedKeepsCharacters(s: Bytes, t: Bytes)
    requires Valid(s)
    ensures Cleaned(s + t) == s + Cleaned(t)
    decreases |s|
  {
    if s == [] {
      assert s + t == t;
    } else {
      var c, u := s[..FirstLength(s)], s[FirstLength(s)..];
      calc {
        Cleaned(s + t);
        { PutBack(s, FirstLength(s), t); }
        Cleaned(c + (u + t));
        { CleanedFirst(s, u + t); }
        c + Cleaned(u + t);
        { CleanedKeepsCharacters(u, t); }
        c + (u + Cleaned(t));
        { PutBack(s, FirstLength(s), Cleaned(t)); }
        s + Cleaned(t);
      }
    }
  }
}
