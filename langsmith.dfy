/** The two helpers the tracing example wraps (scripts/langsmith_example.py): a timeline guess and
    a cost product. The half-second sleeps in both have no effect on the results and are not part
    of this model. */
module LangsmithExample {
  import opened Text

  /** The base weeks for a complexity, compared after lower-casing; anything else is 6. */
  function BaseWeeks(complexity: string): (w: int)
    ensures w == 4 || w == 6 || w == 8 || w == 12
    ensures w == 4 <==> Lower(complexity) == "simple"
    ensures w == 8 <==> Lower(complexity) == "moderate"
    ensures w == 12 <==> Lower(complexity) == "complex"
  {
    var key := Lower(complexity);
    if key == "simple" then 4
    else if key == "moderate" then 8
    else if key == "complex" then 12
    else 6
  }

  /** `estimate_timeline`: the base weeks plus one week per whole hundred square feet. Python's
      `//` rounds toward negative infinity; for the positive divisor 100 that is exactly Dafny's
      Euclidean `/`, so the extra weeks `e` are the one integer with 100 * e <= square_feet < 100 * (e + 1). */
  function EstimateTimeline(squareFeet: int, complexity: string): (r: int)
    ensures 100 * (r - BaseWeeks(complexity)) <= squareFeet < 100 * (r - BaseWeeks(complexity) + 1)
  {
    BaseWeeks(complexity) + squareFeet / 100
  }

  /** A larger area never shortens the timeline. */
  lemma TimelineMonotone(squareFeet1: int, squareFeet2: int, complexity: string)
    requires squareFeet1 <= squareFeet2
    ensures EstimateTimeline(squareFeet1, complexity) <= EstimateTimeline(squareFeet2, complexity)
  {
  }

  /** Under a hundred square feet the timeline is the base alone. */
  lemma SmallAreaIsBase(squareFeet: int, complexity: string)
    requires 0 <= squareFeet < 100
    ensures EstimateTimeline(squareFeet, complexity) == BaseWeeks(complexity)
  {
  }

  /** The complexity is compared without regard to case. */
  lemma TimelineIgnoresCase(squareFeet: int, complexity: string)
    ensures EstimateTimeline(squareFeet, complexity) == EstimateTimeline(squareFeet, Lower(complexity))
  {
    LowerIdempotent(complexity);
  }

  /** `calculate_cost`: the area times the rate, exactly (the product is not rounded). */
  function CalculateCost(squareFeet: int, ratePerSqft: real): real {
    squareFeet as real * ratePerSqft
  }

  /** The cost is additive in the area: pricing two areas separately costs the same as together. */
  lemma CostAdditive(squareFeet1: int, squareFeet2: int, ratePerSqft: real)
    ensures CalculateCost(squareFeet1 + squareFeet2, ratePerSqft) ==
            CalculateCost(squareFeet1, ratePerSqft) + CalculateCost(squareFeet2, ratePerSqft)
  {
    assert (squareFeet1 + squareFeet2) as real == squareFeet1 as real + squareFeet2 as real;
  }

  /** With a non-negative rate a larger area never costs less. */
  lemma CostMonotone(squareFeet1: int, squareFeet2: int, ratePerSqft: real)
    requires squareFeet1 <= squareFeet2 && ratePerSqft >= 0.0
    ensures CalculateCost(squareFeet1, ratePerSqft) <= CalculateCost(squareFeet2, ratePerSqft)
  {
    CostAdditive(squareFeet1, squareFeet2 - squareFeet1, ratePerSqft);
    assert CalculateCost(squareFeet2 - squareFeet1, ratePerSqft) >= 0.0;
  }
}
