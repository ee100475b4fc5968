/** The deterministic renovation cost formula (backend/estimator.py). */
module Estimator {
  import opened Wrappers
  import opened Text
  import opened PyNumbers
  import Sequences

  /** Base cost per square foot by project type. */
  const BaseCosts: map<string, int> :=
    map["kitchen" := 250, "bathroom" := 300, "addition" := 200,
        "basement" := 150, "living_room" := 175, "bedroom" := 125]

  const MaterialMultipliers: map<string, real> :=
    map["economy" := 0.8, "standard" := 1.0, "premium" := 1.3, "luxury" := 1.8]

  const TimelineMultipliers: map<string, real> :=
    map["flexible" := 0.9, "standard" := 1.0, "rush" := 1.25, "emergency" := 1.5]

  /** Regional adjustment keyed by the first character of the ZIP code. */
  const RegionAdjustments: map<string, real> :=
    map["9" := 1.3, "1" := 1.2, "3" := 0.9, "7" := 0.85, "8" := 0.95]

  /** Base timeline in weeks by project type. */
  const BaseTimelines: map<string, int> :=
    map["kitchen" := 4, "bathroom" := 3, "addition" := 8,
        "basement" := 6, "living_room" := 3, "bedroom" := 2]

  const TimelineAdjustments: map<string, real> :=
    map["flexible" := 1.2, "standard" := 1.0, "rush" := 0.7]

  /** `m.get(key, default)` */
  function Lookup<V>(m: map<string, V>, key: string, default: V): V {
    if key in m then m[key] else default
  }

  /** Base cost per square foot; an unknown type is priced at the kitchen rate. */
  function BaseCost(projectType: string): (r: int)
    ensures projectType !in BaseCosts ==> r == 250
    ensures 125 <= r <= 300
  {
    Lookup(BaseCosts, projectType, BaseCosts["kitchen"])
  }

  /** Material multiplier; an unknown grade is priced as "standard". */
  function MaterialMultiplier(material: string): (r: real)
    ensures material !in MaterialMultipliers ==> r == 1.0
    ensures 0.8 <= r <= 1.8
  {
    Lookup(MaterialMultipliers, material, MaterialMultipliers["standard"])
  }

  /** Timeline multiplier; an unknown timeline is priced as "standard". */
  function TimelineMultiplier(timeline: string): (r: real)
    ensures timeline !in TimelineMultipliers ==> r == 1.0
    ensures 0.9 <= r <= 1.5
  {
    Lookup(TimelineMultipliers, timeline, TimelineMultipliers["standard"])
  }

  /** The region multiplier, from the first character of the ZIP code (`zip_code[0:1]`); an empty
      ZIP code or a non-digit first character gives 1.0. */
  function RegionMultiplier(zipCode: string): (r: real)
    ensures zipCode == [] ==> r == 1.0
    ensures 0.85 <= r <= 1.3
  {
    var first := zipCode[..Min(1, |zipCode|)];
    if zipCode != [] && IsDigit(first[0]) then Lookup(RegionAdjustments, first, 1.0) else 1.0
  }

  /** Only the first character of the ZIP code matters. */
  lemma RegionFirstCharOnly(zip1: string, zip2: string)
    requires zip1 != [] && zip2 != [] && zip1[0] == zip2[0]
    ensures RegionMultiplier(zip1) == RegionMultiplier(zip2)
  {
    assert zip1[..1] == zip2[..1];
  }

  /** The region table, digit by digit; every other first character gives 1.0. */
  lemma RegionTable(zipCode: string)
    requires zipCode != []
    ensures zipCode[0] == '9' ==> RegionMultiplier(zipCode) == 1.3
    ensures zipCode[0] == '1' ==> RegionMultiplier(zipCode) == 1.2
    ensures zipCode[0] == '3' ==> RegionMultiplier(zipCode) == 0.9
    ensures zipCode[0] == '7' ==> RegionMultiplier(zipCode) == 0.85
    ensures zipCode[0] == '8' ==> RegionMultiplier(zipCode) == 0.95
    ensures zipCode[0] !in "91378" ==> RegionMultiplier(zipCode) == 1.0
  {
    var c := zipCode[0];
    assert zipCode[..1] == [c];
    if c !in "91378" {
      assert [c] !in RegionAdjustments;
    }
  }

  /** The combined rate per square foot: base rate times the three multipliers; always positive. */
  function CostRate(zipCode: string, projectType: string, material: string, timeline: string): (rate: real)
    ensures rate > 0.0
  {
    Rate(BaseCost(projectType) as real, MaterialMultiplier(material), TimelineMultiplier(timeline), RegionMultiplier(zipCode))
  }

  function Rate(base: real, material: real, timeline: real, region: real): (rate: real)
    requires base > 0.0 && material > 0.0 && timeline > 0.0 && region > 0.0
    ensures rate > 0.0
  {
    assert base * material > 0.0;
    assert base * material * timeline > 0.0;
    base * material * timeline * region
  }

  /** The unrounded cost `sqft * base_cost * material_mult * timeline_mult * region_mult`. */
  function CostProduct(zipCode: string, projectType: string, sqft: real, material: string, timeline: string): real {
    Cost(sqft, CostRate(zipCode, projectType, material, timeline))
  }

  /** An area priced at a rate per square foot. */
  function Cost(sqft: real, rate: real): real {
    sqft * rate
  }

  /** The cost rounded to the nearest $100: a multiple of 100 within $50 of the product. */
  function RoundedTotal(product: real): (total: int)
    ensures total % 100 == 0
    ensures product - 50.0 <= total as real <= product + 50.0
  {
    Round(product / 100.0) * 100
  }

  datatype EstimateError =
    | ZeroDivisionError   // `total_cost / sqft` with sqft == 0
    | MathDomainError     // `math.sqrt` of a negative ratio

  datatype Breakdown = Breakdown(labor: int, materials: int, permits: int, other: int)

  datatype Estimate = Estimate(total: int, perSqft: real, breakdown: Breakdown, currency: string, timelineWeeks: int)

  /** The fixed 45/35/10/10 split, each share rounded. */
  function CostBreakdown(total: int): (b: Breakdown)
    requires total % 100 == 0
    ensures b.labor * 100 == 45 * total && b.materials * 100 == 35 * total
    ensures b.permits * 100 == 10 * total && b.other * 100 == 10 * total
    ensures b.labor + b.materials + b.permits + b.other == total
  {
    SharesOfHundreds(total / 100);
    assert total == 100 * (total / 100);
    Breakdown(Round(total as real * 0.45), Round(total as real * 0.35),
              Round(total as real * 0.10), Round(total as real * 0.10))
  }

  /** On a multiple of 100 the three shares are whole numbers. */
  lemma SharesOfHundreds(hundreds: int)
    ensures (100 * hundreds) as real * 0.45 == (45 * hundreds) as real
    ensures (100 * hundreds) as real * 0.35 == (35 * hundreds) as real
    ensures (100 * hundreds) as real * 0.10 == (10 * hundreds) as real
  {
  }

  /** The square of `base_weeks * sqrt(sqft / 200) * adjustment`; both factors are positive. */
  function TimelineSquare(sqft: real, projectType: string, timeline: string): real
    requires sqft >= 0.0
  {
    var baseWeeks := Lookup(BaseTimelines, projectType, BaseTimelines["kitchen"]) as real;
    var adjustment := Lookup(TimelineAdjustments, timeline, TimelineAdjustments["standard"]);
    Sq(baseWeeks * adjustment) * (sqft / 200.0)
  }

  /** Estimated weeks: the scaled base timeline rounded, never below one week; a negative area is
      a math domain error. */
  function TimelineWeeks(sqft: real, projectType: string, timeline: string): (r: Result<int, EstimateError>)
    ensures sqft < 0.0 <==> r == Err(MathDomainError)
    ensures sqft >= 0.0 <==> r.Ok?
    ensures r.Ok? ==> r.value >= 1
    ensures r.Ok? ==> TimelineSquare(sqft, projectType, timeline) <= Sq(r.value as real + 0.5)
    ensures r.Ok? && r.value > 1 ==>
      var q := TimelineSquare(sqft, projectType, timeline);
      Sq(r.value as real - 0.5) <= q <= Sq(r.value as real + 0.5)
  {
    if sqft < 0.0 then Err(MathDomainError)
    else Ok(Max(1, RoundSqrt(TimelineSquare(sqft, projectType, timeline))))
  }

  /** A larger area never gives a shorter timeline. */
  lemma TimelineWeeksMonotone(sqft1: real, sqft2: real, projectType: string, timeline: string)
    requires 0.0 <= sqft1 <= sqft2
    ensures TimelineWeeks(sqft1, projectType, timeline).value <= TimelineWeeks(sqft2, projectType, timeline).value
  {
    var baseWeeks := Lookup(BaseTimelines, projectType, BaseTimelines["kitchen"]) as real;
    var adjustment := Lookup(TimelineAdjustments, timeline, TimelineAdjustments["standard"]);
    var c := Sq(baseWeeks * adjustment);
    assert c >= 0.0;
    var d := (sqft2 - sqft1) / 200.0;
    assert c * (sqft2 / 200.0) == c * (sqft1 / 200.0) + c * d;
    assert c * d >= 0.0;
    RoundSqrtMonotone(TimelineSquare(sqft1, projectType, timeline), TimelineSquare(sqft2, projectType, timeline));
  }

  /** `simple_estimate`; a zero area fails dividing by it, a negative one taking its square root. */
  function SimpleEstimate(zipCode: string, projectType: string, sqft: real, material: string, timeline: string)
    : (r: Result<Estimate, EstimateError>)
    ensures sqft == 0.0 <==> r == Err(ZeroDivisionError)
    ensures sqft < 0.0 <==> r == Err(MathDomainError)
  {
    EstimateFrom(sqft, CostRate(zipCode, projectType, material, timeline), TimelineWeeks(sqft, projectType, timeline))
  }

  /** What a successful estimate promises: the total is a multiple of $100 within $50 of the
      unrounded product, the four shares are exactly 45/35/10/10 percent and add up to the total,
      the per-square-foot figure is within half a cent, and the timeline is at least one week. */
  lemma SimpleEstimateContract(zipCode: string, projectType: string, sqft: real, material: string, timeline: string)
    requires sqft > 0.0
    ensures SimpleEstimate(zipCode, projectType, sqft, material, timeline).Ok?
    ensures
      var e := SimpleEstimate(zipCode, projectType, sqft, material, timeline).value;
      var product := CostProduct(zipCode, projectType, sqft, material, timeline);
      && e.total % 100 == 0
      && product - 50.0 <= e.total as real <= product + 50.0
      && e.total >= 0
      && e.breakdown.labor + e.breakdown.materials + e.breakdown.permits + e.breakdown.other == e.total
      && e.breakdown.labor * 100 == 45 * e.total
      && e.breakdown.materials * 100 == 35 * e.total
      && e.breakdown.permits * 100 == 10 * e.total
      && e.breakdown.other * 100 == 10 * e.total
      && e.total as real / sqft - 0.005 <= e.perSqft <= e.total as real / sqft + 0.005
      && e.currency == "USD"
      && e.timelineWeeks >= 1
      && Ok(e.timelineWeeks) == TimelineWeeks(sqft, projectType, timeline)
  {
    ProductNonNegative(zipCode, projectType, sqft, material, timeline);
  }

  /** The body of `simple_estimate` once the table lookups are resolved to a rate and a timeline. */
  function EstimateFrom(sqft: real, rate: real, weeks: Result<int, EstimateError>): (r: Result<Estimate, EstimateError>)
    ensures sqft == 0.0 ==> r == Err(ZeroDivisionError)
    ensures sqft != 0.0 && weeks.Err? ==> r == Err(weeks.error)
    ensures sqft != 0.0 && weeks.Ok? ==>
      && r.Ok?
      && r.value.total == RoundedTotal(Cost(sqft, rate))
      && r.value.perSqft == RoundCents(r.value.total as real / sqft)
      && r.value.breakdown == CostBreakdown(r.value.total)
      && r.value.currency == "USD"
      && r.value.timelineWeeks == weeks.value
  {
    var total := RoundedTotal(Cost(sqft, rate));
    if sqft == 0.0 then Err(ZeroDivisionError)
    else
      var perSqft := RoundCents(total as real / sqft);
      var breakdown := CostBreakdown(total);
      match weeks
      case Err(e) => Err(e)
      case Ok(w) => Ok(Estimate(total, perSqft, breakdown, "USD", w))
  }

  /** Rounding to the nearest $100 never reverses the order of two costs. */
  lemma RoundedTotalMonotone(p1: real, p2: real)
    requires p1 <= p2
    ensures RoundedTotal(p1) <= RoundedTotal(p2)
  {
    RoundMonotone(p1 / 100.0, p2 / 100.0);
  }

  lemma ProductNonNegative(zipCode: string, projectType: string, sqft: real, material: string, timeline: string)
    ensures sqft >= 0.0 ==> CostProduct(zipCode, projectType, sqft, material, timeline) >= 0.0
  {
    var c := CostRate(zipCode, projectType, material, timeline);
    if sqft >= 0.0 {
      assert Cost(sqft, c) >= 0.0;
    }
  }

  /** The estimate depends on the type, material, timeline and ZIP code only through the combined rate
      and the timeline they give. */
  lemma EstimateDetermined(sqft: real, zip1: string, type1: string, material1: string, timeline1: string,
                           zip2: string, type2: string, material2: string, timeline2: string)
    requires CostRate(zip1, type1, material1, timeline1) == CostRate(zip2, type2, material2, timeline2)
    requires TimelineWeeks(sqft, type1, timeline1) == TimelineWeeks(sqft, type2, timeline2)
    ensures SimpleEstimate(zip1, type1, sqft, material1, timeline1) == SimpleEstimate(zip2, type2, sqft, material2, timeline2)
  {
  }

  /** With the other inputs fixed, a larger area never gives a smaller total. */
  lemma TotalMonotoneInArea(zipCode: string, projectType: string, sqft1: real, sqft2: real, material: string, timeline: string)
    requires 0.0 < sqft1 <= sqft2
    ensures SimpleEstimate(zipCode, projectType, sqft1, material, timeline).Ok?
    ensures SimpleEstimate(zipCode, projectType, sqft2, material, timeline).Ok?
    ensures SimpleEstimate(zipCode, projectType, sqft1, material, timeline).value.total
         <= SimpleEstimate(zipCode, projectType, sqft2, material, timeline).value.total
  {
    TotalIsRoundedProduct(zipCode, projectType, sqft1, material, timeline);
    TotalIsRoundedProduct(zipCode, projectType, sqft2, material, timeline);
    CostMonotone(sqft1, sqft2, CostRate(zipCode, projectType, material, timeline));
    RoundedTotalMonotone(CostProduct(zipCode, projectType, sqft1, material, timeline),
                         CostProduct(zipCode, projectType, sqft2, material, timeline));
  }

  lemma CostMonotone(sqft1: real, sqft2: real, rate: real)
    requires sqft1 <= sqft2 && rate > 0.0
    ensures Cost(sqft1, rate) <= Cost(sqft2, rate)
  {
    assert sqft2 * rate - sqft1 * rate == (sqft2 - sqft1) * rate;
  }

  lemma TotalIsRoundedProduct(zipCode: string, projectType: string, sqft: real, material: string, timeline: string)
    requires sqft > 0.0
    ensures SimpleEstimate(zipCode, projectType, sqft, material, timeline).Ok?
    ensures SimpleEstimate(zipCode, projectType, sqft, material, timeline).value.total
         == RoundedTotal(CostProduct(zipCode, projectType, sqft, material, timeline))
  {
  }

  /** An unknown project type is estimated exactly as a kitchen. */
  lemma UnknownTypeIsKitchen(zipCode: string, projectType: string, sqft: real, material: string, timeline: string)
    requires projectType !in BaseCosts
    ensures SimpleEstimate(zipCode, projectType, sqft, material, timeline)
         == SimpleEstimate(zipCode, "kitchen", sqft, material, timeline)
  {
    assert BaseCost(projectType) == BaseCost("kitchen");
    assert Lookup(BaseTimelines, projectType, BaseTimelines["kitchen"]) == BaseTimelines["kitchen"];
    if sqft >= 0.0 {
      assert TimelineSquare(sqft, projectType, timeline) == TimelineSquare(sqft, "kitchen", timeline);
    }
    EstimateDetermined(sqft, zipCode, projectType, material, timeline, zipCode, "kitchen", material, timeline);
  }

  /** An unknown material grade is estimated exactly as "standard". */
  lemma UnknownMaterialIsStandard(zipCode: string, projectType: string, sqft: real, material: string, timeline: string)
    requires material !in MaterialMultipliers
    ensures SimpleEstimate(zipCode, projectType, sqft, material, timeline)
         == SimpleEstimate(zipCode, projectType, sqft, "standard", timeline)
  {
    assert MaterialMultiplier(material) == MaterialMultiplier("standard");
    EstimateDetermined(sqft, zipCode, projectType, material, timeline, zipCode, projectType, "standard", timeline);
  }

  /** An unknown timeline is estimated exactly as "standard", for the cost and for the weeks. */
  lemma UnknownTimelineIsStandard(zipCode: string, projectType: string, sqft: real, material: string, timeline: string)
    requires timeline !in TimelineMultipliers
    ensures SimpleEstimate(zipCode, projectType, sqft, material, timeline)
         == SimpleEstimate(zipCode, projectType, sqft, material, "standard")
  {
    assert TimelineMultiplier(timeline) == TimelineMultiplier("standard");
    assert Lookup(TimelineAdjustments, timeline, TimelineAdjustments["standard"]) == TimelineAdjustments["standard"];
    if sqft >= 0.0 {
      assert TimelineSquare(sqft, projectType, timeline) == TimelineSquare(sqft, projectType, "standard");
    }
    EstimateDetermined(sqft, zipCode, projectType, material, timeline, zipCode, projectType, material, "standard");
  }

  /** The keys `get_cost_estimate` reads from its dictionary; a missing key is `None`. */
  datatype ProjectDetails = ProjectDetails(
    zipCode: Option<string>, projectType: Option<string>, squareFeet: Option<real>,
    materialGrade: Option<string>, timeline: Option<string>)

  /** `get_cost_estimate`: `simple_estimate` with ZIP "00000", a kitchen, 200 sq ft, "standard" material
      and a "standard" timeline substituted for missing keys. */
  function GetCostEstimate(details: ProjectDetails): (r: Result<Estimate, EstimateError>)
    ensures r.Ok? <==> details.squareFeet.GetOr(200.0) > 0.0
  {
    SimpleEstimate(
      details.zipCode.GetOr("00000"),
      details.projectType.GetOr("kitchen"),
      details.squareFeet.GetOr(200.0),
      details.materialGrade.GetOr("standard"),
      details.timeline.GetOr("standard"))
  }

  /** The dictionary's values reach `simple_estimate` unchanged, and a missing key behaves exactly as
      that key present with its default. */
  lemma GetCostEstimateSpec(details: ProjectDetails)
    ensures details.zipCode.Some? && details.projectType.Some? && details.squareFeet.Some?
            && details.materialGrade.Some? && details.timeline.Some? ==>
      GetCostEstimate(details) == SimpleEstimate(details.zipCode.value, details.projectType.value,
        details.squareFeet.value, details.materialGrade.value, details.timeline.value)
    ensures details.zipCode.None? ==>
      GetCostEstimate(details) == GetCostEstimate(details.(zipCode := Some("00000")))
    ensures details.projectType.None? ==>
      GetCostEstimate(details) == GetCostEstimate(details.(projectType := Some("kitchen")))
    ensures details.squareFeet.None? ==>
      GetCostEstimate(details) == GetCostEstimate(details.(squareFeet := Some(200.0)))
    ensures details.materialGrade.None? ==>
      GetCostEstimate(details) == GetCostEstimate(details.(materialGrade := Some("standard")))
    ensures details.timeline.None? ==>
      GetCostEstimate(details) == GetCostEstimate(details.(timeline := Some("standard")))
  {
  }

  /** With every key missing: 200 sq ft of standard kitchen at the default regional rate. */
  lemma EmptyDetailsEstimate()
    ensures GetCostEstimate(ProjectDetails(None, None, None, None, None))
         == Ok(Estimate(50000, 250.0, Breakdown(22500, 17500, 5000, 5000), "USD", 4))
  {
    assert RegionMultiplier("00000") == 1.0 by {
      assert "00000"[..1] == "0";
    }
    assert CostProduct("00000", "kitchen", 200.0, "standard", "standard") == 50000.0;
    assert Round(500.0) == 500;
    assert Round(25000.0) == 25000;
    assert TimelineSquare(200.0, "kitchen", "standard") == 16.0;
    assert RoundSqrt(16.0) == 4 by {
      assert Sq(3.5) < 16.0 <= Sq(4.5);
      assert RootSearch(16.0, 0) == 4;
    }
  }

  /** One historical project of the fixed sample. */
  datatype SampleProject = SampleProject(
    projectType: string, squareFeet: int, materialGrade: string, timeline: string,
    totalCost: int, location: string, completionDate: string)

  const SampleProjects: seq<SampleProject> := [
    SampleProject("kitchen", 200, "standard", "standard", 50000, "New York, NY", "2023-06-15"),
    SampleProject("bathroom", 100, "premium", "rush", 35000, "Los Angeles, CA", "2023-08-20"),
    SampleProject("addition", 400, "economy", "flexible", 80000, "Chicago, IL", "2023-05-10")
  ]

  /** `search_similar_projects`: the query is ignored and the first `min(k, 3)` sample projects are
      returned in order (a negative `k` drops that many from the end, as Python slicing does). */
  function SearchSimilarProjects(query: string, k: int): (r: seq<SampleProject>)
    ensures k >= 0 ==> |r| == Min(k, 3) && r == SampleProjects[..|r|]
    ensures k < 0 ==> r == SampleProjects[..Max(3 + k, 0)]
  {
    Sequences.SlicePrefix(SampleProjects, Min(k, |SampleProjects|))
  }
}
