/** Cost estimate of one generation, from the token counts the service
    reports. Prices are fixed per million tokens and do not depend on the
    model that was used. Amounts are exact reals; the program computes them
    in binary floating point. */
module Cost {
  import opened Service

  /** Dollars per million prompt (input) tokens. */
  const InputPricePerMillion: real := 0.15

  /** Dollars per million response (output) tokens. */
  const OutputPricePerMillion: real := 0.60

  const Million: real := 1000000.0

  /** The three amounts calculate_cost returns, in its order. */
  datatype Costs = Costs(input: real, output: real, total: real)

  /** calculate_cost: each count is scaled to millions of tokens and priced;
      the total is the sum of the two parts. The usage's own total token
      count is not consulted. */
  function CalculateCost(usage: Usage): (c: Costs)
    ensures c.total == c.input + c.output
    ensures usage.promptTokenCount >= 0 && usage.candidatesTokenCount >= 0 ==> c.input >= 0.0 && c.output >= 0.0 && c.total >= 0.0
  {
    var inputCost := (usage.promptTokenCount as real / Million) * InputPricePerMillion;
    var outputCost := (usage.candidatesTokenCount as real / Million) * OutputPricePerMillion;
    Costs(inputCost, outputCost, inputCost + outputCost)
  }

  /** Per-token reading of the prices: 0.15e-6 dollars per prompt token and
      0.60e-6 per response token. */
  lemma CostPerToken(usage: Usage)
    ensures CalculateCost(usage).input == usage.promptTokenCount as real * 0.00000015
    ensures CalculateCost(usage).output == usage.candidatesTokenCount as real * 0.0000006
  {
  }

  /** No tokens cost nothing. */
  lemma ZeroTokensCostNothing(total: int)
    ensures CalculateCost(Usage(0, 0, total)) == Costs(0.0, 0.0, 0.0)
  {
  }

  /** The estimate is additive: the cost of two usages together is the sum
      of their costs, component by component. */
  lemma CostIsAdditive(a: Usage, b: Usage, total: int)
    ensures var sum := Usage(a.promptTokenCount + b.promptTokenCount, a.candidatesTokenCount + b.candidatesTokenCount, total);
      CalculateCost(sum).input == CalculateCost(a).input + CalculateCost(b).input &&
      CalculateCost(sum).output == CalculateCost(a).output + CalculateCost(b).output &&
      CalculateCost(sum).total == CalculateCost(a).total + CalculateCost(b).total
  {
  }

  /** More tokens of either kind never cost less. */
  lemma CostIsMonotone(a: Usage, b: Usage)
    requires a.promptTokenCount <= b.promptTokenCount
    requires a.candidatesTokenCount <= b.candidatesTokenCount
    ensures CalculateCost(a).input <= CalculateCost(b).input
    ensures CalculateCost(a).output <= CalculateCost(b).output
    ensures CalculateCost(a).total <= CalculateCost(b).total
  {
  }

  /** Only the prompt and response counts matter: the reported total token
      count, which may include tokens of other kinds, does not. */
  lemma CostIgnoresReportedTotal(usage: Usage, otherTotal: int)
    ensures CalculateCost(usage) == CalculateCost(usage.(totalTokenCount := otherTotal))
  {
  }

  /** 1000 prompt tokens and 500 response tokens. */
  lemma CostExample()
    ensures CalculateCost(Usage(1000, 500, 1500)) == Costs(0.00015, 0.0003, 0.00045)
  {
  }
}
