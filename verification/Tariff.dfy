/** What usage costs, in numbers: prices are credits for a million tokens at a multiplier of 100. */
module Tariff {
  import opened Outcomes
  import opened Calculator

  lemma PartIsProduct(tokens: nat, price: nat)
    ensures Part(tokens, price) == tokens * price
  {
  }

  /** Any usage at any prices: every kind of token at its own price, the sum scaled and rounded up once. */
  lemma UsageCosts(u: Usage, p: Price, m: int)
    requires NonNegative(u) && p.input >= 0 && p.cacheRead >= 0 && p.cacheWrite >= 0 && p.output >= 0 && p.audioInput >= 0 && p.audioOutput >= 0
    ensures var sum := u.baseInput * p.input + u.cacheRead * p.cacheRead + u.cacheWrite * p.cacheWrite
        + u.output * p.output + u.audioInput * p.audioInput + u.audioOutput * p.audioOutput;
      Charges(TokenCredits(u, p, m), sum * Max(m, 100), 100_000_000)
  {
    PartIsProduct(u.baseInput, p.input);
    PartIsProduct(u.cacheRead, p.cacheRead);
    PartIsProduct(u.cacheWrite, p.cacheWrite);
    PartIsProduct(u.output, p.output);
    PartIsProduct(u.audioInput, p.audioInput);
    PartIsProduct(u.audioOutput, p.audioOutput);
    CeilDivCharges(Cost(u, p) * Multiplier(m), 100_000_000);
  }

  /** Tokens of one kind cost their own price and no other, whatever the signs of the other prices. */
  lemma OneKindCosts(n: nat, p: Price, m: int)
    requires n > 0
    ensures p.input > 0 ==> Charges(TokenCredits(Usage(n, 0, 0, 0, 0, 0), p, m), n * p.input * Max(m, 100), 100_000_000)
    ensures p.cacheRead > 0 ==> Charges(TokenCredits(Usage(0, n, 0, 0, 0, 0), p, m), n * p.cacheRead * Max(m, 100), 100_000_000)
    ensures p.cacheWrite > 0 ==> Charges(TokenCredits(Usage(0, 0, n, 0, 0, 0), p, m), n * p.cacheWrite * Max(m, 100), 100_000_000)
    ensures p.output > 0 ==> Charges(TokenCredits(Usage(0, 0, 0, n, 0, 0), p, m), n * p.output * Max(m, 100), 100_000_000)
    ensures p.audioInput > 0 ==> Charges(TokenCredits(Usage(0, 0, 0, 0, n, 0), p, m), n * p.audioInput * Max(m, 100), 100_000_000)
    ensures p.audioOutput > 0 ==> Charges(TokenCredits(Usage(0, 0, 0, 0, 0, n), p, m), n * p.audioOutput * Max(m, 100), 100_000_000)
  {
    CeilDivCharges(n * p.input * Max(m, 100), 100_000_000);
    CeilDivCharges(n * p.cacheRead * Max(m, 100), 100_000_000);
    CeilDivCharges(n * p.cacheWrite * Max(m, 100), 100_000_000);
    CeilDivCharges(n * p.output * Max(m, 100), 100_000_000);
    CeilDivCharges(n * p.audioInput * Max(m, 100), 100_000_000);
    CeilDivCharges(n * p.audioOutput * Max(m, 100), 100_000_000);
  }

  lemma ExactCharge(credits: int, c: nat, k: nat)
    requires k > 0 && c <= MAX_INT64 && Charges(credits, c * k, k)
    ensures credits == c
  {
    if c > 0 {
      MulMonotone(1, c, 1, k);
      MulOrder(c, MAX_INT64, k);
      MulOrder(credits - 1, c, k);
      MulOrder(c, credits, k);
    }
  }

  /** A million tokens of one kind cost exactly their price when nothing is scaled. */
  lemma MillionCostsThePrice(p: Price, c: nat)
    requires 0 < c <= MAX_INT64
    ensures p.input == c ==> TokenCredits(Usage(1_000_000, 0, 0, 0, 0, 0), p, 100) == c
    ensures p.cacheRead == c ==> TokenCredits(Usage(0, 1_000_000, 0, 0, 0, 0), p, 100) == c
    ensures p.cacheWrite == c ==> TokenCredits(Usage(0, 0, 1_000_000, 0, 0, 0), p, 100) == c
    ensures p.output == c ==> TokenCredits(Usage(0, 0, 0, 1_000_000, 0, 0), p, 100) == c
    ensures p.audioInput == c ==> TokenCredits(Usage(0, 0, 0, 0, 1_000_000, 0), p, 100) == c
    ensures p.audioOutput == c ==> TokenCredits(Usage(0, 0, 0, 0, 0, 1_000_000), p, 100) == c
  {
    CeilDivCharges(c * 100_000_000, 100_000_000);
    ExactCharge(CeilDiv(c * 100_000_000, 100_000_000), c, 100_000_000);
  }

  /** The other prices do not enter into the cost of a kind. */
  lemma OtherPricesDoNotMatter(n: int, p: Price, q: Price, m: int)
    ensures p.input == q.input ==> TokenCredits(Usage(n, 0, 0, 0, 0, 0), p, m) == TokenCredits(Usage(n, 0, 0, 0, 0, 0), q, m)
    ensures p.cacheRead == q.cacheRead ==> TokenCredits(Usage(0, n, 0, 0, 0, 0), p, m) == TokenCredits(Usage(0, n, 0, 0, 0, 0), q, m)
    ensures p.cacheWrite == q.cacheWrite ==> TokenCredits(Usage(0, 0, n, 0, 0, 0), p, m) == TokenCredits(Usage(0, 0, n, 0, 0, 0), q, m)
    ensures p.output == q.output ==> TokenCredits(Usage(0, 0, 0, n, 0, 0), p, m) == TokenCredits(Usage(0, 0, 0, n, 0, 0), q, m)
    ensures p.audioInput == q.audioInput ==> TokenCredits(Usage(0, 0, 0, 0, n, 0), p, m) == TokenCredits(Usage(0, 0, 0, 0, n, 0), q, m)
    ensures p.audioOutput == q.audioOutput ==> TokenCredits(Usage(0, 0, 0, 0, 0, n), p, m) == TokenCredits(Usage(0, 0, 0, 0, 0, n), q, m)
  {
  }

  /** The precharge: the prompt's tokens or the minimum, and the output the client asks for or the default. */
  lemma EstimateCosts(p: Price, m: int, prompt: nat, minTokens: int, defaultMaxTokens: nat, maxTokens: Option<int>)
    requires p.input >= 0 && p.cacheRead >= 0 && p.cacheWrite >= 0 && p.output >= 0 && p.audioInput >= 0 && p.audioOutput >= 0
    ensures var input := if prompt < minTokens then minTokens else prompt;
      var output := if maxTokens.Some? && maxTokens.value > 0 then maxTokens.value else defaultMaxTokens;
      Charges(TokenCredits(Estimate(prompt, minTokens, defaultMaxTokens, maxTokens), p, m),
              (input * p.input + output * p.output) * Max(m, 100), 100_000_000)
  {
    var u := Estimate(prompt, minTokens, defaultMaxTokens, maxTokens);
    UsageCosts(u, p, m);
    assert 0 * p.cacheRead == 0 * p.cacheWrite == 0 * p.audioInput == 0 * p.audioOutput == 0;
  }
}
