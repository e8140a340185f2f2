/** Credits for usage: exact products, one ceiling, saturated at the largest 64-bit value. */
module Calculator {
  import opened Outcomes
  import L = Ledger
  import S = Session

  const MAX_INT64 := 0x7fff_ffff_ffff_ffff
  const TOKENS_PER_UNIT := 1_000_000
  const BASE_MULTIPLIER_PERCENT := 100
  const MICRO_USD_RATIO_DENOM := 1_000_000_000
  const PERCENT_PER_UNIT := 100

  datatype Price = Price(input: int, output: int, cacheRead: int, cacheWrite: int, audioInput: int, audioOutput: int, perCall: int)

  datatype Usage = Usage(baseInput: int, cacheRead: int, cacheWrite: int, output: int, audioInput: int, audioOutput: int)

  /** A count or a price of zero or less contributes nothing. */
  function Part(tokens: int, price: int): int { if tokens <= 0 || price <= 0 then 0 else tokens * price }

  function Cost(u: Usage, p: Price): int {
    Part(u.baseInput, p.input) + Part(u.cacheRead, p.cacheRead) + Part(u.cacheWrite, p.cacheWrite)
    + Part(u.output, p.output) + Part(u.audioInput, p.audioInput) + Part(u.audioOutput, p.audioOutput)
  }

  function CeilDiv(num: int, den: int): int {
    if num <= 0 || den <= 0 then 0
    else Min(num / den + (if num % den != 0 then 1 else 0), MAX_INT64)
  }

  function Multiplier(percent: int): int { Max(percent, BASE_MULTIPLIER_PERCENT) }

  const TOKEN_DENOM := BASE_MULTIPLIER_PERCENT * TOKENS_PER_UNIT

  function TokenCredits(u: Usage, p: Price, percent: int): int { CeilDiv(Cost(u, p) * Multiplier(percent), TOKEN_DENOM) }

  method AddMul(num: int, tokens: int, price: int) returns (sum: int)
    ensures sum == num + Part(tokens, price)
  {
    if tokens <= 0 || price <= 0 {
      return num;
    }
    sum := num + tokens * price;
  }

  method CeilBigDiv(num: int, den: int) returns (r: int)
    ensures r == CeilDiv(num, den)
  {
    if num <= 0 || den <= 0 {
      return 0;
    }
    var quo, rem := num / den, num % den;
    if rem != 0 {
      quo := quo + 1;
    }
    r := if quo > MAX_INT64 then MAX_INT64 else quo;
  }

  method CalcTokenCredits(u: Usage, p: Price, multiplierPercent: int) returns (credits: int)
    ensures credits == TokenCredits(u, p, multiplierPercent)
  {
    var percent := multiplierPercent;
    if percent < BASE_MULTIPLIER_PERCENT {
      percent := BASE_MULTIPLIER_PERCENT;
    }
    var num := AddMul(0, u.baseInput, p.input);
    num := AddMul(num, u.cacheRead, p.cacheRead);
    num := AddMul(num, u.cacheWrite, p.cacheWrite);
    num := AddMul(num, u.output, p.output);
    num := AddMul(num, u.audioInput, p.audioInput);
    num := AddMul(num, u.audioOutput, p.audioOutput);
    credits := CeilBigDiv(num * percent, BASE_MULTIPLIER_PERCENT * TOKENS_PER_UNIT);
  }

  method CalcPerCallCredits(count: int, p: Price, multiplierPercent: int) returns (credits: int)
    ensures credits == CeilDiv(Part(count, p.perCall) * Multiplier(multiplierPercent), BASE_MULTIPLIER_PERCENT)
    ensures count > 0 && p.perCall > 0 ==> Charges(credits, count * p.perCall * Max(multiplierPercent, 100), 100)
    ensures count <= 0 || p.perCall <= 0 ==> credits == 0
  {
    var percent := multiplierPercent;
    if percent < BASE_MULTIPLIER_PERCENT {
      percent := BASE_MULTIPLIER_PERCENT;
    }
    var num := AddMul(0, count, p.perCall);
    credits := CeilBigDiv(num * percent, BASE_MULTIPLIER_PERCENT);
    CeilDivCharges(num * percent, 100);
  }

  // ---- The ceiling ----

  lemma QuotientBounds(num: int, den: int)
    requires den > 0
    ensures num == (num / den) * den + num % den && 0 <= num % den < den
  {
  }

  lemma MulOrder(a: int, b: int, den: int)
    requires den > 0
    ensures a * den < b * den <==> a < b
    ensures a * den <= b * den <==> a <= b
  {
  }

  /** r is the ceiling of num/den. */
  predicate IsCeiling(r: int, num: int, den: int) { (r - 1) * den < num <= r * den }

  /** The exact ceiling of any positive amount that fits, the largest value for one that does not. */
  lemma CeilIsExact(num: int, den: int)
    requires num > 0 && den > 0
    ensures if num <= MAX_INT64 * den then IsCeiling(CeilDiv(num, den), num, den) else CeilDiv(num, den) == MAX_INT64
  {
    QuotientBounds(num, den);
    var q := num / den;
    var up := if num % den != 0 then q + 1 else q;
    assert (up - 1) * den == up * den - den;
    assert (q + 1) * den == q * den + den;
    if num <= MAX_INT64 * den {
      MulOrder(MAX_INT64, up - 1, den);
    } else {
      MulOrder(MAX_INT64, up, den);
    }
  }

  /** The ceiling of the quotient; nothing for nothing; the largest value when the ceiling is beyond it. */
  predicate Charges(credits: int, num: int, den: int)
    requires den > 0
  {
    if num <= 0 then credits == 0
    else if num <= MAX_INT64 * den then (credits - 1) * den < num <= credits * den
    else credits == MAX_INT64
  }

  lemma CeilDivCharges(num: int, den: int)
    requires den > 0
    ensures Charges(CeilDiv(num, den), num, den)
  {
    if num > 0 {
      CeilIsExact(num, den);
    }
  }

  lemma CeilingIsUnique(r: int, t: int, num: int, den: int)
    requires den > 0 && IsCeiling(r, num, den) && IsCeiling(t, num, den)
    ensures r == t
  {
    MulOrder(r - 1, t, den);
    MulOrder(t - 1, r, den);
  }

  lemma CeilMonotone(a: int, b: int, den: int)
    requires a <= b && den > 0
    ensures CeilDiv(a, den) <= CeilDiv(b, den)
  {
    if a > 0 {
      CeilIsExact(a, den);
      CeilIsExact(b, den);
      if b <= MAX_INT64 * den {
        MulOrder(CeilDiv(a, den) - 1, CeilDiv(b, den), den);
      }
    }
  }

  lemma Distribute(a: int, b: int, c: int)
    ensures (a + b) * c == a * c + b * c
  {
  }

  lemma CeilingsOfSum(x: int, y: int, z: int, a: int, b: int, den: int)
    requires den > 0 && IsCeiling(x, a, den) && IsCeiling(y, b, den) && IsCeiling(z, a + b, den)
    ensures z <= x + y <= z + 1
  {
    Distribute(x, y, den);
    Distribute(x - 1, y - 1, den);
    MulOrder(z - 1, x + y, den);
    MulOrder(x + y - 2, z, den);
  }

  /** Two ceilings make at most one more than the ceiling of the sum, and never less. */
  lemma CeilSplits(a: int, b: int, den: int)
    requires a >= 0 && b >= 0 && den > 0 && a + b <= MAX_INT64 * den
    ensures CeilDiv(a + b, den) <= CeilDiv(a, den) + CeilDiv(b, den) <= CeilDiv(a + b, den) + 1
  {
    if a > 0 && b > 0 {
      CeilIsExact(a, den);
      CeilIsExact(b, den);
      CeilIsExact(a + b, den);
      CeilingsOfSum(CeilDiv(a, den), CeilDiv(b, den), CeilDiv(a + b, den), a, b, den);
    }
  }

  // ---- Credits grow with everything they are computed from ----

  predicate UsageAtMost(u: Usage, v: Usage) {
    && u.baseInput <= v.baseInput && u.cacheRead <= v.cacheRead && u.cacheWrite <= v.cacheWrite
    && u.output <= v.output && u.audioInput <= v.audioInput && u.audioOutput <= v.audioOutput
  }

  predicate PriceAtMost(p: Price, q: Price) {
    && p.input <= q.input && p.cacheRead <= q.cacheRead && p.cacheWrite <= q.cacheWrite
    && p.output <= q.output && p.audioInput <= q.audioInput && p.audioOutput <= q.audioOutput
  }

  lemma MulMonotone(a: int, b: int, c: int, d: int)
    requires 0 <= a <= b && 0 <= c <= d
    ensures 0 <= a * c <= b * d
  {
    assert a * c <= b * c;
    assert b * c <= b * d;
  }

  lemma PartMonotone(t: int, u: int, p: int, q: int)
    requires t <= u && p <= q
    ensures 0 <= Part(t, p) <= Part(u, q)
  {
    if t > 0 && p > 0 {
      MulMonotone(t, u, p, q);
    } else if u > 0 && q > 0 {
      MulMonotone(0, u, 0, q);
    }
  }

  lemma CostMonotone(u: Usage, v: Usage, p: Price, q: Price)
    requires UsageAtMost(u, v) && PriceAtMost(p, q)
    ensures 0 <= Cost(u, p) <= Cost(v, q)
  {
    PartMonotone(u.baseInput, v.baseInput, p.input, q.input);
    PartMonotone(u.cacheRead, v.cacheRead, p.cacheRead, q.cacheRead);
    PartMonotone(u.cacheWrite, v.cacheWrite, p.cacheWrite, q.cacheWrite);
    PartMonotone(u.output, v.output, p.output, q.output);
    PartMonotone(u.audioInput, v.audioInput, p.audioInput, q.audioInput);
    PartMonotone(u.audioOutput, v.audioOutput, p.audioOutput, q.audioOutput);
  }

  lemma CreditsMonotone(u: Usage, v: Usage, p: Price, q: Price, m: int, n: int)
    requires UsageAtMost(u, v) && PriceAtMost(p, q) && m <= n
    ensures 0 <= TokenCredits(u, p, m) <= TokenCredits(v, q, n) <= MAX_INT64
  {
    CostMonotone(u, v, p, q);
    MulMonotone(Cost(u, p), Cost(v, q), Multiplier(m), Multiplier(n));
    CeilMonotone(Cost(u, p) * Multiplier(m), Cost(v, q) * Multiplier(n), TOKEN_DENOM);
    CeilMonotone(0, Cost(u, p) * Multiplier(m), TOKEN_DENOM);
  }

  predicate NonNegative(u: Usage) {
    u.baseInput >= 0 && u.cacheRead >= 0 && u.cacheWrite >= 0 && u.output >= 0 && u.audioInput >= 0 && u.audioOutput >= 0
  }

  function Together(u: Usage, v: Usage): Usage {
    Usage(u.baseInput + v.baseInput, u.cacheRead + v.cacheRead, u.cacheWrite + v.cacheWrite,
          u.output + v.output, u.audioInput + v.audioInput, u.audioOutput + v.audioOutput)
  }

  lemma PartAdds(t: int, u: int, p: int)
    requires t >= 0 && u >= 0
    ensures Part(t + u, p) == Part(t, p) + Part(u, p)
  {
    assert (t + u) * p == t * p + u * p;
  }

  lemma CostAdds(u: Usage, v: Usage, p: Price)
    requires NonNegative(u) && NonNegative(v)
    ensures Cost(Together(u, v), p) == Cost(u, p) + Cost(v, p)
  {
    PartAdds(u.baseInput, v.baseInput, p.input);
    PartAdds(u.cacheRead, v.cacheRead, p.cacheRead);
    PartAdds(u.cacheWrite, v.cacheWrite, p.cacheWrite);
    PartAdds(u.output, v.output, p.output);
    PartAdds(u.audioInput, v.audioInput, p.audioInput);
    PartAdds(u.audioOutput, v.audioOutput, p.audioOutput);
  }

  /** Billing one usage in two pieces costs the same or one credit more, below saturation. */
  lemma SplitCostsAtMostOneMore(u: Usage, v: Usage, p: Price, m: int)
    requires NonNegative(u) && NonNegative(v) && Cost(Together(u, v), p) * Multiplier(m) <= MAX_INT64 * TOKEN_DENOM
    ensures var whole, pieces := TokenCredits(Together(u, v), p, m), TokenCredits(u, p, m) + TokenCredits(v, p, m);
      whole <= pieces <= whole + 1
  {
    CostAdds(u, v, p);
    CostMonotone(u, u, p, p);
    CostMonotone(v, v, p, p);
    var f := Multiplier(m);
    assert (Cost(u, p) + Cost(v, p)) * f == Cost(u, p) * f + Cost(v, p) * f;
    MulMonotone(0, Cost(u, p), 0, f);
    MulMonotone(0, Cost(v, p), 0, f);
    CeilSplits(Cost(u, p) * f, Cost(v, p) * f, TOKEN_DENOM);
  }

  // ---- The pre-charge covers what it was estimated for ----

  /** The usage a chat pre-charge is computed for. */
  function Estimate(prompt: int, minTokens: int, defaultMaxTokens: int, maxTokens: Option<int>): Usage {
    Usage(Max(prompt, minTokens), 0, 0, if maxTokens.Some? && maxTokens.value > 0 then maxTokens.value else defaultMaxTokens, 0, 0)
  }

  /** Real usage inside an estimate: all input tokens, cached or not, and the output stay within it, and no audio. */
  predicate Within(u: Usage, estimate: Usage) {
    && NonNegative(u) && u.audioInput == 0 && u.audioOutput == 0
    && u.baseInput + u.cacheRead + u.cacheWrite <= estimate.baseInput && u.output <= estimate.output
  }

  predicate CacheIsNotDearer(p: Price) { p.cacheRead <= p.input && p.cacheWrite <= p.input }

  lemma EstimateCoversFinal(u: Usage, p: Price, m: int, prompt: int, minTokens: int, defaultMaxTokens: int, maxTokens: Option<int>)
    requires Within(u, Estimate(prompt, minTokens, defaultMaxTokens, maxTokens)) && CacheIsNotDearer(p)
    ensures TokenCredits(u, p, m) <= TokenCredits(Estimate(prompt, minTokens, defaultMaxTokens, maxTokens), p, m)
  {
    var e := Estimate(prompt, minTokens, defaultMaxTokens, maxTokens);
    PartMonotone(u.cacheRead, u.cacheRead, p.cacheRead, p.input);
    PartMonotone(u.cacheWrite, u.cacheWrite, p.cacheWrite, p.input);
    PartAdds(u.baseInput, u.cacheRead, p.input);
    PartAdds(u.baseInput + u.cacheRead, u.cacheWrite, p.input);
    PartMonotone(u.baseInput + u.cacheRead + u.cacheWrite, e.baseInput, p.input, p.input);
    PartMonotone(u.output, e.output, p.output, p.output);
    CostMonotone(u, u, p, p);
    MulMonotone(Cost(u, p), Cost(e, p), Multiplier(m), Multiplier(m));
    CeilMonotone(Cost(u, p) * Multiplier(m), Cost(e, p) * Multiplier(m), TOKEN_DENOM);
  }

  /**
    Then settling only ever gives credits back: it is not refused, and the clamp to the
    balance, which would make the call cheaper than its usage, is out of reach.
   */
  lemma SettleNeverClamps(s: S.State, u: Usage, p: Price, m: int, balance: int,
                          prompt: int, minTokens: int, defaultMaxTokens: int, maxTokens: Option<int>)
    requires Within(u, Estimate(prompt, minTokens, defaultMaxTokens, maxTokens)) && CacheIsNotDearer(p) && balance >= 0
    requires s.precharged == TokenCredits(Estimate(prompt, minTokens, defaultMaxTokens, maxTokens), p, m)
    ensures var adj := S.SettleAdj(s, TokenCredits(u, p, m));
      L.Effective(balance, adj) == adj.amount == s.precharged - TokenCredits(u, p, m) && adj.amount >= 0
  {
    EstimateCoversFinal(u, p, m, prompt, minTokens, defaultMaxTokens, maxTokens);
  }

  // ---- Prices from dollars ----

  predicate AllPositive(a: int, b: int, c: int) { a > 0 && b > 0 && c > 0 }

  method ConvertMicroUSDTToCredits(usdMicro: int, usdCnyRateMilli: int, creditsPerCNY: int) returns (credits: int)
    ensures AllPositive(usdMicro, usdCnyRateMilli, creditsPerCNY) ==> credits == CeilDiv(usdMicro * usdCnyRateMilli * creditsPerCNY, MICRO_USD_RATIO_DENOM)
    ensures AllPositive(usdMicro, usdCnyRateMilli, creditsPerCNY) ==> Charges(credits, usdMicro * usdCnyRateMilli * creditsPerCNY, 1_000_000_000)
    ensures !AllPositive(usdMicro, usdCnyRateMilli, creditsPerCNY) ==> credits == 0
  {
    if usdMicro <= 0 || usdCnyRateMilli <= 0 || creditsPerCNY <= 0 {
      return 0;
    }
    var num := usdMicro;
    num := num * usdCnyRateMilli;
    num := num * creditsPerCNY;
    credits := CeilBigDiv(num, MICRO_USD_RATIO_DENOM);
    CeilDivCharges(num, 1_000_000_000);
  }

  method ConvertUSDToCredits(microUSD: int, usdCnyRateMilli: int, creditsPerCNY: int, markupPercent: int) returns (credits: int)
    ensures AllPositive(microUSD, usdCnyRateMilli, creditsPerCNY) && markupPercent > 0 ==>
      credits == CeilDiv(microUSD * usdCnyRateMilli * creditsPerCNY * markupPercent, MICRO_USD_RATIO_DENOM * PERCENT_PER_UNIT)
    ensures AllPositive(microUSD, usdCnyRateMilli, creditsPerCNY) && markupPercent > 0 ==>
      Charges(credits, microUSD * usdCnyRateMilli * creditsPerCNY * markupPercent, 100_000_000_000)
    ensures !AllPositive(microUSD, usdCnyRateMilli, creditsPerCNY) || markupPercent <= 0 ==> credits == 0
  {
    if microUSD <= 0 || usdCnyRateMilli <= 0 || creditsPerCNY <= 0 || markupPercent <= 0 {
      return 0;
    }
    var num := microUSD;
    num := num * usdCnyRateMilli;
    num := num * creditsPerCNY;
    num := num * markupPercent;
    credits := CeilBigDiv(num, MICRO_USD_RATIO_DENOM * PERCENT_PER_UNIT);
    CeilDivCharges(num, 100_000_000_000);
  }

  lemma ScaledCeiling(r: int, num: int, den: int, k: int)
    requires den > 0 && k > 0 && IsCeiling(r, num, den)
    ensures IsCeiling(r, num * k, den * k)
  {
    MulOrder((r - 1) * den, num, k);
    MulOrder(num, r * den, k);
    assert (r - 1) * (den * k) == ((r - 1) * den) * k;
    assert r * (den * k) == (r * den) * k;
  }

  lemma CeilScales(num: int, den: int, k: int)
    requires num > 0 && den > 0 && k > 0
    ensures CeilDiv(num * k, den * k) == CeilDiv(num, den)
  {
    var n, d := num * k, den * k;
    MulMonotone(1, num, 1, k);
    MulMonotone(1, den, 1, k);
    CeilIsExact(num, den);
    CeilIsExact(n, d);
    MulOrder(MAX_INT64 * den, num, k);
    assert (MAX_INT64 * den) * k == MAX_INT64 * d;
    if num <= MAX_INT64 * den {
      ScaledCeiling(CeilDiv(num, den), num, den, k);
      CeilingIsUnique(CeilDiv(num, den), CeilDiv(n, d), n, d);
    }
  }

  /** Income and cost round the same way: at a mark-up of 100 they are equal, above it income is no smaller. */
  lemma MarkupNeverLoses(base: int, markupPercent: int)
    requires base > 0 && markupPercent >= PERCENT_PER_UNIT
    ensures CeilDiv(base * markupPercent, MICRO_USD_RATIO_DENOM * PERCENT_PER_UNIT) >= CeilDiv(base, MICRO_USD_RATIO_DENOM)
    ensures markupPercent == PERCENT_PER_UNIT ==>
      CeilDiv(base * markupPercent, MICRO_USD_RATIO_DENOM * PERCENT_PER_UNIT) == CeilDiv(base, MICRO_USD_RATIO_DENOM)
  {
    CeilScales(base, MICRO_USD_RATIO_DENOM, PERCENT_PER_UNIT);
    MulMonotone(base, base, PERCENT_PER_UNIT, markupPercent);
    CeilMonotone(base * PERCENT_PER_UNIT, base * markupPercent, MICRO_USD_RATIO_DENOM * PERCENT_PER_UNIT);
  }

  // ---- The time-of-day multiplier ----

  /** A rule, with the weekday and minute its time zone shows now; an unknown zone shows nothing. */
  datatype PeakRule = PeakRule(startMinute: int, endMinute: int, daysOfWeek: seq<int>, multiplierPercent: int, enabled: bool)

  datatype LocalTime = LocalTime(weekday: int, minute: int)

  predicate Matches(r: PeakRule, at: Option<LocalTime>) {
    r.enabled && at.Some? && at.value.weekday in r.daysOfWeek && r.startMinute <= at.value.minute < r.endMinute
  }

  /**
    The largest multiplier of the rules in force, never below the base: order and duplicates do
    not matter.  A rule is in force from its first minute up to, not including, its last.
   */
  method EvaluatePeakMultiplier(rules: seq<PeakRule>, at: seq<Option<LocalTime>>) returns (best: int)
    requires |at| == |rules|
    ensures best >= 100
    ensures forall i :: 0 <= i < |rules| && rules[i].enabled && at[i].Some? && at[i].value.weekday in rules[i].daysOfWeek ==>
      (rules[i].startMinute <= at[i].value.minute < rules[i].endMinute ==> rules[i].multiplierPercent <= best)
    ensures best == 100 || exists i :: (0 <= i < |rules| && rules[i].multiplierPercent == best && rules[i].enabled && at[i].Some?
        && at[i].value.weekday in rules[i].daysOfWeek && rules[i].startMinute <= at[i].value.minute < rules[i].endMinute)
  {
    best := BASE_MULTIPLIER_PERCENT;
    for k := 0 to |rules|
      invariant best >= BASE_MULTIPLIER_PERCENT
      invariant forall i :: 0 <= i < k && Matches(rules[i], at[i]) ==> rules[i].multiplierPercent <= best
      invariant best != BASE_MULTIPLIER_PERCENT ==> exists i :: 0 <= i < k && Matches(rules[i], at[i]) && rules[i].multiplierPercent == best
    {
      var r := rules[k];
      if !r.enabled || r.multiplierPercent <= best {
        continue;
      }
      if at[k].None? {
        continue;
      }
      if at[k].value.weekday !in r.daysOfWeek {
        continue;
      }
      if r.startMinute <= at[k].value.minute < r.endMinute {
        best := r.multiplierPercent;
        assert Matches(rules[k], at[k]);
      }
    }
  }
}
