/** Credits as decimal money strings, in 64-bit arithmetic where the code uses it. */
module Display {
  import opened Outcomes
  import opened Numerals

  const MIN_INT64 := -0x8000_0000_0000_0000
  const MAX_INT64 := 0x7fff_ffff_ffff_ffff
  const TWO64 := 0x1_0000_0000_0000_0000

  predicate IsInt64(x: int) { MIN_INT64 <= x <= MAX_INT64 }

  function Wrap64(x: int): int { if x % TWO64 > MAX_INT64 then x % TWO64 - TWO64 else x % TWO64 }

  // ---- How many decimals show a single credit ----

  /** The power of ten as the loop holds it, wrapping around. */
  function Wrapped(k: nat): int { if k == 0 then 1 else Wrap64(10 * Wrapped(k - 1)) }

  lemma DoubledProduct(x: int, y: int)
    ensures 2 * (x * y) == (2 * x) * y
  {
  }

  lemma {:induction false} Pow2Splits(m: nat, n: nat)
    ensures Pow2(m + n) == Pow2(m) * Pow2(n)
  {
    if m > 0 {
      Pow2Splits(m - 1, n);
      assert Pow2(m + n) == 2 * Pow2(m - 1 + n);
      DoubledProduct(Pow2(m - 1), Pow2(n));
    }
  }

  lemma Pow2Of16()
    ensures Pow2(16) == 0x1_0000
  {
    assert Pow2(4) == 16;
    Pow2Splits(4, 4);
    Pow2Splits(8, 8);
  }

  lemma Pow2Of64()
    ensures Pow2(64) == TWO64
  {
    Pow2Of16();
    Pow2Splits(16, 16);
    Pow2Splits(32, 32);
  }

  lemma WrapDropsMultiples(x: int) returns (c: int)
    ensures Wrap64(x) == x - c * TWO64 && IsInt64(Wrap64(x))
  {
    c := if x % TWO64 > MAX_INT64 then x / TWO64 + 1 else x / TWO64;
    assert x == (x / TWO64) * TWO64 + x % TWO64;
  }

  lemma FactorStep(w: int, half: int, rest: int, n: int) returns (m: int)
    requires w == half * n && (2 * half) * rest == TWO64
    ensures Wrap64(10 * w) == (2 * half) * m && IsInt64(Wrap64(10 * w))
  {
    var c := WrapDropsMultiples(10 * w);
    m := 5 * n - c * rest;
    calc {
      (2 * half) * m;
      (2 * half) * (5 * n) - (2 * half) * (c * rest);
      { assert (2 * half) * (c * rest) == c * ((2 * half) * rest); }
      (2 * half) * (5 * n) - c * TWO64;
      { assert (2 * half) * (5 * n) == 10 * (half * n); }
      10 * w - c * TWO64;
    }
  }

  /** Each multiplication by ten brings one more factor of two. */
  lemma {:induction false} WrappedFactor(k: nat) returns (m: int)
    requires k <= 64
    ensures Wrapped(k) == Pow2(k) * m && IsInt64(Wrapped(k))
  {
    if k == 0 {
      m := 1;
    } else {
      var n := WrappedFactor(k - 1);
      Pow2Of64();
      Pow2Splits(k, 64 - k);
      m := FactorStep(Wrapped(k - 1), Pow2(k - 1), Pow2(64 - k), n);
    }
  }

  lemma {:induction false} WrappedIsZero(k: nat)
    requires k >= 64
    ensures Wrapped(k) == 0
  {
    if k == 64 {
      var m := WrappedFactor(64);
      Pow2Of64();
      assert m != 0 ==> m >= 1 || m <= -1;
    } else {
      WrappedIsZero(k - 1);
    }
  }

  predicate StopsAt(unit: int, d: nat) {
    if unit <= 1 then d == 0 else Wrapped(d) >= unit && forall k: nat :: k < d ==> Wrapped(k) < unit
  }

  const TEN18: nat := 1_000_000_000_000_000_000

  lemma TenTo18()
    ensures Pow10(18) == TEN18
  {
    assert Pow10(6) == 1_000_000;
    assert Pow10(12) == 1_000_000_000_000;
  }

  lemma EighteenIsLargest(k: nat)
    requires k <= 18
    ensures Pow10(k) <= TEN18
  {
    TenTo18();
    if k < 18 {
      Pow10Grows(k, 18);
    }
  }

  lemma WrapKeepsSmall(x: int)
    requires 0 <= x <= MAX_INT64
    ensures Wrap64(x) == x
  {
  }

  lemma {:induction false} SmallPowersAreExact(k: nat)
    requires k <= 18
    ensures Wrapped(k) == Pow10(k) <= TEN18
  {
    EighteenIsLargest(k);
    if k > 0 {
      SmallPowersAreExact(k - 1);
      WrapKeepsSmall(Pow10(k));
    }
  }

  lemma NineteenthIsNegative()
    ensures Wrapped(19) < 0 && Pow10(19) > MAX_INT64
  {
    TenTo18();
    SmallPowersAreExact(18);
    assert Wrapped(19) == Wrap64(10 * TEN18);
  }

  predicate BelowUpTo(unit: int, d: nat) { forall k: nat :: k < d ==> Wrapped(k) < unit }

  /** Once 64 powers stay below the rate, all do: the power has become zero for good. */
  lemma NeverReached(unit: int)
    requires unit > 1 && BelowUpTo(unit, 64)
    ensures forall k: nat :: Wrapped(k) < unit
    ensures unit > TEN18
  {
    forall k: nat
      ensures Wrapped(k) < unit
    {
      if k >= 64 {
        WrappedIsZero(k);
      }
    }
    SmallPowersAreExact(18);
    TenTo18();
    assert Wrapped(18) < unit;
  }

  /** The loop's answer; none when it runs forever. */
  method DetailDecimals(creditsPerUnit: int) returns (decimals: Option<nat>)
    ensures decimals.Some? ==> StopsAt(creditsPerUnit, decimals.value)
    ensures decimals.None? ==> forall k: nat :: Wrapped(k) < creditsPerUnit
    ensures creditsPerUnit <= TEN18 ==> decimals.Some?
  {
    if creditsPerUnit <= 1 {
      return Some(0);
    }
    var d, p := 0, 1;
    while p < creditsPerUnit
      invariant d <= 64 && p == Wrapped(d) && BelowUpTo(creditsPerUnit, d)
      decreases 64 - d
    {
      if d == 64 {
        NeverReached(creditsPerUnit);
        return None;
      }
      p := Wrap64(p * 10);
      d := d + 1;
      assert p == Wrapped(d);
    }
    decimals := Some(d);
  }

  /** The least number of decimals in which one credit is visible. */
  predicate IsLeast(unit: int, d: nat) { Pow10(d) >= unit && forall k: nat :: k < d ==> Pow10(k) < unit }

  lemma {:induction false} FirstStop(unit: int, n: nat) returns (d: nat)
    requires unit > 1 && Wrapped(n) >= unit
    ensures d <= n && StopsAt(unit, d)
  {
    if forall k: nat :: k < n ==> Wrapped(k) < unit {
      d := n;
    } else {
      var k: nat :| k < n && Wrapped(k) >= unit;
      d := FirstStop(unit, k);
    }
  }

  lemma SmallRateIsExact(unit: int, d: nat)
    requires 1 <= unit <= TEN18 && StopsAt(unit, d)
    ensures IsLeast(unit, d)
  {
    TenTo18();
    SmallPowersAreExact(18);
    assert d <= 18;
    SmallPowersAreExact(d);
    forall k: nat | k < d
      ensures Pow10(k) < unit
    {
      SmallPowersAreExact(k);
    }
  }

  lemma LargeRateIsNot(unit: int, d: nat)
    requires TEN18 < unit <= MAX_INT64 && StopsAt(unit, d)
    ensures !IsLeast(unit, d)
  {
    NineteenthIsNegative();
    if d <= 18 {
      EighteenIsLargest(d);
    }
  }

  /**
    The loop ends with the least number of decimals exactly for rates up to 10^18; above, it
    steps over that number or never stops.
   */
  lemma DetailDecimalsIsLeastIff(unit: int)
    requires 1 <= unit <= MAX_INT64
    ensures (exists d: nat :: StopsAt(unit, d) && IsLeast(unit, d)) <==> unit <= TEN18
  {
    if unit <= TEN18 {
      var d := 0;
      if unit > 1 {
        TenTo18();
        SmallPowersAreExact(18);
        d := FirstStop(unit, 18);
      }
      SmallRateIsExact(unit, d);
    } else {
      forall d: nat | StopsAt(unit, d)
        ensures !IsLeast(unit, d)
      {
        LargeRateIsNot(unit, d);
      }
    }
  }

  // ---- The decimal string ----

  function Negated(x: int): int { Wrap64(-x) }

  /** Division that truncates toward zero, and its remainder. */
  function Quo(num: int, den: int): int
    requires den > 0
  {
    if num >= 0 then num / den else -((-num) / den)
  }

  function Rem(num: int, den: int): int
    requires den > 0
  {
    num - Quo(num, den) * den
  }

  function IntString(n: int): string { if n < 0 then "-" + Decimal(-n) else Decimal(n) }

  function Pad(s: string, width: nat): string
    decreases width - |s|
  {
    if |s| < width then Pad("0" + s, width) else s
  }

  function Rounded(num: int, den: int): int
    requires den > 0
  {
    if 2 * Rem(num, den) >= den then Quo(num, den) + 1 else Quo(num, den)
  }

  function Sign(negative: bool): string { if negative then "-" else "" }

  function Magnitude(credits: int): int { if credits < 0 then Negated(credits) else credits }

  function WithPoint(s: string, decimals: nat): string
    requires |s| > decimals
  {
    if decimals == 0 then s else s[..|s| - decimals] + "." + s[|s| - decimals..]
  }

  function Printed(credits: int, unit: int, decimals: int): string {
    if unit <= 0 || decimals < 0 then "0"
    else
      PadLength(IntString(Rounded(Magnitude(credits) * Pow10(decimals), unit)), decimals + 1);
      Sign(credits < 0) + WithPoint(Pad(IntString(Rounded(Magnitude(credits) * Pow10(decimals), unit)), decimals + 1), decimals)
  }

  lemma {:induction false} PadLength(s: string, width: nat)
    ensures |Pad(s, width)| >= width && |Pad(s, width)| >= |s|
    decreases width - |s|
  {
    if |s| < width {
      PadLength("0" + s, width);
    }
  }

  method Pow10BigInt(n: nat) returns (p: int)
    ensures p == Pow10(n)
  {
    p := 1;
    for i := 0 to n
      invariant p == Pow10(i)
    {
      p := p * 10;
    }
  }

  /** Zeros in front to at least one digit before the point, then the point. */
  method FixedPoint(digits: string, decimals: nat) returns (out: string)
    requires digits != ""
    ensures |Pad(digits, decimals + 1)| > decimals && out == WithPoint(Pad(digits, decimals + 1), decimals)
  {
    PadLength(digits, decimals + 1);
    if decimals == 0 {
      return digits;
    }
    var s := digits;
    while |s| <= decimals
      invariant Pad(s, decimals + 1) == Pad(digits, decimals + 1)
      decreases decimals - |s|
    {
      s := "0" + s;
    }
    out := s[..|s| - decimals] + "." + s[|s| - decimals..];
  }

  method CreditsToDecimalString(credits: int, creditsPerUnit: int, decimals: int) returns (out: string)
    ensures out == Printed(credits, creditsPerUnit, decimals)
    ensures creditsPerUnit <= 0 || decimals < 0 ==> out == "0"
  {
    if creditsPerUnit <= 0 || decimals < 0 {
      return "0";
    }
    var neg := credits < 0;
    var num := if neg then Negated(credits) else credits;
    if decimals > 0 {
      var p := Pow10BigInt(decimals);
      num := num * p;
    }
    assert num == Magnitude(credits) * Pow10(decimals);
    var q, r := Quo(num, creditsPerUnit), Rem(num, creditsPerUnit);
    if r * 2 >= creditsPerUnit {
      q := q + 1;
    }
    assert q == Rounded(num, creditsPerUnit);
    DecimalReads(if q < 0 then -q else q);
    out := FixedPoint(IntString(q), decimals);
    if neg {
      return "-" + out;
    }
    assert Sign(false) + out == out;
  }

  // ---- Reading it back ----

  /** The numeral with its point left out, if the text is one with the given number of decimals. */
  function Digits(body: string, decimals: nat): Option<string> {
    var digits :=
      if decimals == 0 then body
      else if |body| < decimals + 2 || body[|body| - decimals - 1] != '.' then "?"
      else body[..|body| - decimals - 1] + body[|body| - decimals..];
    if digits != "" && AllDigits(digits) then Some(digits) else None
  }

  function Signed(negative: bool, size: int): int { if negative then -size else size }

  /** The value of a money string in units of its last place. */
  function ReadFixed(s: string, decimals: nat): (v: Option<int>)
    ensures v.Some? ==> Digits(if s != "" && s[0] == '-' then s[1..] else s, decimals).Some?
  {
    var negative := s != "" && s[0] == '-';
    var digits := Digits(if negative then s[1..] else s, decimals);
    if digits.None? then None else Some(Signed(negative, Value(digits.value)))
  }

  lemma {:induction false} PadReads(s: string, width: nat)
    requires AllDigits(s)
    ensures AllDigits(Pad(s, width)) && Value(Pad(s, width)) == Value(s)
    decreases width - |s|
  {
    if |s| < width {
      LeadingZero(s);
      PadReads("0" + s, width);
    }
  }

  lemma {:induction false} PadKeepsMinus(s: string, width: nat)
    requires '-' in s
    ensures '-' in Pad(s, width)
    decreases width - |s|
  {
    if |s| < width {
      PadKeepsMinus("0" + s, width);
    }
  }

  lemma PointBetween(left: string, right: string)
    requires left != "" && right != ""
    ensures Digits(left + "." + right, |right|) == if AllDigits(left + right) then Some(left + right) else None
  {
    var body := left + "." + right;
    assert |body| - |right| - 1 == |left| && body[|left|] == '.';
    assert body[..|left|] == left && body[|left| + 1..] == right;
  }

  lemma PointIsLeftOut(s: string, decimals: nat)
    requires |s| > decimals
    ensures Digits(WithPoint(s, decimals), decimals) == if AllDigits(s) then Some(s) else None
  {
    if decimals > 0 {
      var left, right := s[..|s| - decimals], s[|s| - decimals..];
      assert |right| == decimals && left + right == s;
      assert WithPoint(s, decimals) == left + "." + right;
      PointBetween(left, right);
    }
  }

  /** Rounding to the nearest multiple, halves up. */
  lemma RoundedIsNearest(num: nat, den: int)
    requires den > 0
    ensures Rounded(num, den) >= 0 && -den <= 2 * num - 2 * (Rounded(num, den) * den) < den
  {
    var q := num / den;
    assert num == q * den + num % den;
    assert (q + 1) * den == q * den + den;
    assert Quo(num, den) == q >= 0;
  }

  lemma FirstIsDigit(s: string, decimals: nat)
    requires |s| > decimals && AllDigits(s)
    ensures WithPoint(s, decimals) != "" && IsDigit(WithPoint(s, decimals)[0])
  {
    assert WithPoint(s, decimals)[0] == s[0];
  }

  lemma SignedReads(negative: bool, body: string, s: string, decimals: nat)
    requires body != "" && IsDigit(body[0]) && AllDigits(s) && Digits(body, decimals) == Some(s)
    ensures ReadFixed(Sign(negative) + body, decimals) == Some(Signed(negative, Value(s)))
  {
    if negative {
      assert ("-" + body)[1..] == body;
    } else {
      assert "" + body == body;
    }
  }

  lemma ShownReadsBack(negative: bool, q: nat, decimals: nat)
    ensures |Pad(Decimal(q), decimals + 1)| > decimals
    ensures ReadFixed(Sign(negative) + WithPoint(Pad(Decimal(q), decimals + 1), decimals), decimals) == Some(Signed(negative, q))
  {
    DecimalReads(q);
    PadReads(Decimal(q), decimals + 1);
    PadLength(Decimal(q), decimals + 1);
    var s := Pad(Decimal(q), decimals + 1);
    PointIsLeftOut(s, decimals);
    FirstIsDigit(s, decimals);
    SignedReads(negative, WithPoint(s, decimals), s, decimals);
  }

  /** The amount without its sign. */
  function Size(credits: int): nat { if credits < 0 then -credits else credits }

  lemma MagnitudeIsSize(credits: int)
    requires IsInt64(credits) && credits != MIN_INT64
    ensures Magnitude(credits) == Size(credits)
  {
  }

  lemma ScaledIsNat(size: nat, decimals: nat)
    ensures size * Pow10(decimals) >= 0
  {
  }

  lemma PrintedIsShown(credits: int, unit: int, decimals: nat, num: nat)
    requires unit > 0 && num == Magnitude(credits) * Pow10(decimals) && Rounded(num, unit) >= 0
    ensures ReadFixed(Printed(credits, unit, decimals), decimals) == Some(Signed(credits < 0, Rounded(num, unit)))
  {
    ShownReadsBack(credits < 0, Rounded(num, unit), decimals);
  }

  /**
    Every amount but the smallest 64-bit one prints as a numeral with the asked number of
    decimals, within half a unit of the last place of the exact quotient.
   */
  lemma PrintedReadsBack(credits: int, unit: int, decimals: nat)
    requires IsInt64(credits) && credits != MIN_INT64 && unit > 0
    ensures var num := Size(credits) * Pow10(decimals); var q := Rounded(num, unit);
      && ReadFixed(Printed(credits, unit, decimals), decimals) == Some(Signed(credits < 0, q))
      && -unit <= 2 * num - 2 * (q * unit) < unit
  {
    MagnitudeIsSize(credits);
    ScaledIsNat(Size(credits), decimals);
    RoundedIsNearest(Size(credits) * Pow10(decimals), unit);
    PrintedIsShown(credits, unit, decimals, Size(credits) * Pow10(decimals));
  }

  lemma AtLeastOneMore(x: int, y: int, den: int)
    requires den > 0 && x > y
    ensures x * den >= y * den + den
  {
    var k := x - y - 1;
    assert k * den >= 0;
    assert (y + 1 + k) * den == y * den + den + k * den;
  }

  lemma NearestOfMultiple(size: int, q: int, den: int)
    requires den > 0 && -den <= 2 * (size * den) - 2 * (q * den) < den
    ensures q == size
  {
    if size > q {
      AtLeastOneMore(size, q, den);
    } else if size < q {
      AtLeastOneMore(q, size, den);
    }
  }

  lemma MultipleIsExact(size: nat, den: int)
    requires den > 0
    ensures Rounded(size * den, den) == size
  {
    assert size * den >= 0;
    RoundedIsNearest(size * den, den);
    NearestOfMultiple(size, Rounded(size * den, den), den);
  }

  /** With a rate of 10^decimals nothing is rounded: the printed rows add up to the credits. */
  lemma PrintedIsExact(credits: int, decimals: nat)
    requires IsInt64(credits) && credits != MIN_INT64
    ensures ReadFixed(Printed(credits, Pow10(decimals), decimals), decimals) == Some(credits)
  {
    MagnitudeIsSize(credits);
    ScaledIsNat(Size(credits), decimals);
    MultipleIsExact(Size(credits), Pow10(decimals));
    PrintedIsShown(credits, Pow10(decimals), decimals, Size(credits) * Pow10(decimals));
  }

  /** Dividing the negated smallest value by a rate leaves a negative quotient. */
  lemma SmallestQuotient(unit: int, decimals: nat) returns (k: int)
    requires 0 < unit <= MAX_INT64
    ensures k >= 1 && Quo(MIN_INT64 * Pow10(decimals), unit) == -k && Rem(MIN_INT64 * Pow10(decimals), unit) <= 0
  {
    var num := MIN_INT64 * Pow10(decimals);
    assert -num >= -MIN_INT64 by {
      assert Pow10(decimals) >= 1;
    }
    k := (-num) / unit;
    assert -num == k * unit + (-num) % unit;
  }

  /** A text with a minus sign in it is no numeral, with or without another sign before it. */
  lemma MinusDoesNotRead(s: string, decimals: nat, i: nat)
    requires |s| > decimals && i < |s| && s[i] == '-'
    ensures ReadFixed("-" + WithPoint(s, decimals), decimals) == None
  {
    assert !IsDigit(s[i]);
    PointIsLeftOut(s, decimals);
    assert ("-" + WithPoint(s, decimals))[1..] == WithPoint(s, decimals);
  }

  /** The smallest value stays negative when it is negated, and its text is not a numeral. */
  lemma SmallestDoesNotPrint(unit: int, decimals: nat)
    requires 0 < unit <= MAX_INT64
    ensures ReadFixed(Printed(MIN_INT64, unit, decimals), decimals) == None
  {
    assert Magnitude(MIN_INT64) == MIN_INT64;
    var k := SmallestQuotient(unit, decimals);
    var text := IntString(-k);
    assert text[0] == '-';
    PadKeepsMinus(text, decimals + 1);
    PadLength(text, decimals + 1);
    var s := Pad(text, decimals + 1);
    var i :| 0 <= i < |s| && s[i] == '-';
    MinusDoesNotRead(s, decimals, i);
  }

  lemma PrintsANumeralIff(credits: int, unit: int, decimals: nat)
    requires IsInt64(credits) && 0 < unit <= MAX_INT64
    ensures ReadFixed(Printed(credits, unit, decimals), decimals).Some? <==> credits != MIN_INT64
  {
    if credits == MIN_INT64 {
      SmallestDoesNotPrint(unit, decimals);
    } else {
      PrintedReadsBack(credits, unit, decimals);
    }
  }
}
