/**
 * The deterministic helpers of `VertexAIService`: ranking recommendations,
 * per-prediction capacity and scaling entries, severity pass-through, the
 * emissions sum and the sustainability score, and the placeholder forecast.
 */
module VertexAiService {
  import opened Wrappers
  import opened Models

  // ----- prioritize_recommendations -----

  /** A recommendation with its estimated impact; `details` stands for the
      keys the ranking does not read. */
  datatype Recommendation = Recommendation(details: string, expectedSavings: Option<real>)

  /** `rec.get("expected_savings_usd", 0)`. */
  function SavingsKey(r: Recommendation): real { r.expectedSavings.GetOr(0.0) }

  predicate SortedBySavings(s: seq<Recommendation>) {
    forall i, j :: 0 <= i < j < |s| ==> SavingsKey(s[i]) >= SavingsKey(s[j])
  }

  /** The recommendations whose key is `k`, in their order in `s`. */
  function WithSavings(s: seq<Recommendation>, k: real): seq<Recommendation> {
    if s == [] then []
    else (if SavingsKey(s[0]) == k then [s[0]] else []) + WithSavings(s[1..], k)
  }

  /** Places `x` before the first element whose key is not larger than its own. */
  function InsertBySavings(x: Recommendation, t: seq<Recommendation>): (r: seq<Recommendation>)
    ensures multiset(r) == multiset(t) + multiset{x}
  {
    if t == [] || SavingsKey(t[0]) <= SavingsKey(x) then [x] + t
    else
      assert t == [t[0]] + t[1..];
      [t[0]] + InsertBySavings(x, t[1..])
  }

  /** Inserting under a bound that `x` and all of `t` respect keeps every key under it. */
  lemma {:induction false} InsertBounded(x: Recommendation, t: seq<Recommendation>, b: real)
    requires SavingsKey(x) <= b
    requires forall i :: 0 <= i < |t| ==> SavingsKey(t[i]) <= b
    ensures forall i :: 0 <= i < |InsertBySavings(x, t)| ==> SavingsKey(InsertBySavings(x, t)[i]) <= b
  {
    if t != [] && SavingsKey(t[0]) > SavingsKey(x) {
      assert forall i :: 0 <= i < |t[1..]| ==> t[1..][i] == t[i + 1];
      InsertBounded(x, t[1..], b);
    }
  }

  lemma {:induction false} InsertKeepsSorted(x: Recommendation, t: seq<Recommendation>)
    requires SortedBySavings(t)
    ensures SortedBySavings(InsertBySavings(x, t))
  {
    if t != [] && SavingsKey(t[0]) > SavingsKey(x) {
      var tail := t[1..];
      assert forall i :: 0 <= i < |tail| ==> tail[i] == t[i + 1];
      var rest := InsertBySavings(x, tail);
      InsertKeepsSorted(x, tail);
      InsertBounded(x, tail, SavingsKey(t[0]));
      var r := [t[0]] + rest;
      assert InsertBySavings(x, t) == r;
      forall i, j | 0 <= i < j < |r|
        ensures SavingsKey(r[i]) >= SavingsKey(r[j])
      {
        assert r[j] == rest[j - 1];
        if i > 0 {
          assert r[i] == rest[i - 1];
        }
      }
    }
  }

  /** `x` joins the recommendations with its key directly in front of them
      and leaves the others alone. */
  lemma {:induction false} InsertStable(x: Recommendation, t: seq<Recommendation>, k: real)
    ensures WithSavings(InsertBySavings(x, t), k)
         == (if SavingsKey(x) == k then [x] else []) + WithSavings(t, k)
  {
    if t == [] || SavingsKey(t[0]) <= SavingsKey(x) {
      assert ([x] + t)[1..] == t;
    } else {
      var rest := InsertBySavings(x, t[1..]);
      InsertStable(x, t[1..], k);
      assert ([t[0]] + rest)[1..] == rest;
    }
  }

  /** `sorted(recommendations, key=..., reverse=True)`. */
  function PrioritizeRecommendations(recs: seq<Recommendation>): (r: seq<Recommendation>)
    ensures multiset(r) == multiset(recs)
  {
    if recs == [] then []
    else
      assert recs == [recs[0]] + recs[1..];
      InsertBySavings(recs[0], PrioritizeRecommendations(recs[1..]))
  }

  lemma {:induction false} PrioritizeSorted(recs: seq<Recommendation>)
    ensures SortedBySavings(PrioritizeRecommendations(recs))
  {
    if recs != [] {
      PrioritizeSorted(recs[1..]);
      InsertKeepsSorted(recs[0], PrioritizeRecommendations(recs[1..]));
    }
  }

  lemma {:induction false} PrioritizeStable(recs: seq<Recommendation>, k: real)
    ensures WithSavings(PrioritizeRecommendations(recs), k) == WithSavings(recs, k)
  {
    if recs != [] {
      PrioritizeStable(recs[1..], k);
      InsertStable(recs[0], PrioritizeRecommendations(recs[1..]), k);
    }
  }

  /** The ranking is a permutation of its input, sorted by expected savings
      (0 when absent) from largest to smallest, and stable: recommendations
      with equal savings keep their input order. */
  lemma PrioritizeSpec(recs: seq<Recommendation>)
    ensures multiset(PrioritizeRecommendations(recs)) == multiset(recs)
    ensures SortedBySavings(PrioritizeRecommendations(recs))
    ensures forall k :: WithSavings(PrioritizeRecommendations(recs), k) == WithSavings(recs, k)
  {
    PrioritizeSorted(recs);
    forall k ensures WithSavings(PrioritizeRecommendations(recs), k) == WithSavings(recs, k) {
      PrioritizeStable(recs, k);
    }
  }

  /** A recommendation without an estimate ranks as one with savings 0:
      after one with positive savings, and ahead of a later one with savings
      exactly 0. */
  lemma MissingSavingsRanksAsZero(a: Recommendation, b: Recommendation)
    requires a.expectedSavings.None?
    ensures b.expectedSavings.GetOr(0.0) > 0.0 ==> PrioritizeRecommendations([a, b]) == [b, a]
    ensures b.expectedSavings.GetOr(0.0) == 0.0 ==> PrioritizeRecommendations([a, b]) == [a, b]
  {
    assert [a, b][1..] == [b];
    assert [b][1..] == [];
    assert PrioritizeRecommendations([b]) == [b];
  }

  // ----- forecast_infrastructure_needs -----

  /** The placeholder forecast: a vCPU and a TPU forecast, each carrying the
      requested horizon; the historical data is not read. */
  function ForecastInfrastructureNeeds<H>(historicalData: seq<H>, horizon: string): (r: seq<VertexForecast>)
    ensures |r| == 2
    ensures forall i :: 0 <= i < |r| ==> r[i].horizon == Some(horizon) && r[i].unit == "count"
    ensures r[0].resource == "vCPU" && r[0].forecast == 180.0
    ensures r[1].resource == "TPU" && r[1].forecast == 8.0
  {
    [VertexForecast("vCPU", 180.0, "count", Some(horizon)), VertexForecast("TPU", 8.0, "count", Some(horizon))]
  }

  // ----- generate_capacity_plan and recommend_scaling_strategy -----

  const QuotaFactor: real := 1.2
  const ScaleMinFactor: real := 0.8
  const ScaleMaxFactor: real := 1.5

  datatype CapacityEntry = CapacityEntry(resource: string, recommendedQuota: real)

  datatype ScalingEntry = ScalingEntry(resource: string, strategy: string, min: real, max: real)

  /** One quota per prediction, 20% above its forecast. */
  function GenerateCapacityPlan(predictions: seq<VertexForecast>): (r: seq<CapacityEntry>)
    ensures |r| == |predictions|
    ensures forall i :: 0 <= i < |r| ==>
      && r[i].resource == predictions[i].resource
      && r[i].recommendedQuota == predictions[i].forecast * QuotaFactor
      && (r[i].recommendedQuota >= predictions[i].forecast <==> predictions[i].forecast >= 0.0)
  {
    seq(|predictions|, i requires 0 <= i < |predictions| =>
      CapacityEntry(predictions[i].resource, predictions[i].forecast * QuotaFactor))
  }

  /** One "AutoScale" entry per prediction, between 0.8 and 1.5 times its
      forecast; the bounds are in order exactly when the forecast is not
      negative. */
  function RecommendScalingStrategy(predictions: seq<VertexForecast>): (r: seq<ScalingEntry>)
    ensures |r| == |predictions|
    ensures forall i :: 0 <= i < |r| ==>
      && r[i].resource == predictions[i].resource
      && r[i].strategy == "AutoScale"
      && r[i].min == predictions[i].forecast * ScaleMinFactor
      && r[i].max == predictions[i].forecast * ScaleMaxFactor
      && (r[i].min <= r[i].max <==> predictions[i].forecast >= 0.0)
  {
    seq(|predictions|, i requires 0 <= i < |predictions| =>
      ScalingEntry(predictions[i].resource, "AutoScale",
                   predictions[i].forecast * ScaleMinFactor, predictions[i].forecast * ScaleMaxFactor))
  }

  /** For a non-negative forecast the capacity quota lies inside the scaling
      range of the same prediction. */
  lemma QuotaWithinScalingRange(predictions: seq<VertexForecast>, i: nat)
    requires i < |predictions| && predictions[i].forecast >= 0.0
    ensures RecommendScalingStrategy(predictions)[i].min
            <= GenerateCapacityPlan(predictions)[i].recommendedQuota
            <= RecommendScalingStrategy(predictions)[i].max
    ensures GenerateCapacityPlan(predictions)[i].resource == RecommendScalingStrategy(predictions)[i].resource
  {
  }

  // ----- assess_anomaly_severity -----

  /** An anomaly record; `details` stands for the keys other than "severity". */
  datatype RawAnomaly = RawAnomaly(details: string, severity: Option<string>)

  datatype SeverityAssessment = SeverityAssessment(anomaly: RawAnomaly, severity: Option<string>)

  /** One assessment per anomaly, in order, with the severity copied (None
      when the anomaly has none). */
  function AssessAnomalySeverity(anomalies: seq<RawAnomaly>): (r: seq<SeverityAssessment>)
    ensures |r| == |anomalies|
    ensures forall i :: 0 <= i < |r| ==> r[i].anomaly == anomalies[i] && r[i].severity == anomalies[i].severity
  {
    seq(|anomalies|, i requires 0 <= i < |anomalies| => SeverityAssessment(anomalies[i], anomalies[i].severity))
  }

  // ----- carbon emissions and sustainability score -----

  const KgCo2ePerUsd: real := 0.001

  /** A usage item; "total_cost" may be absent. */
  datatype UsageItem = UsageItem(totalCost: Option<real>)

  datatype EmissionsReport = EmissionsReport(totalKgCo2e: real, scope3Included: bool)

  /** `sum(item.get("total_cost", 0) * 0.001 for item in usage_data)`, added left to right. */
  function EmissionsTotal(usage: seq<UsageItem>): (e: real)
    ensures (forall i :: 0 <= i < |usage| ==> usage[i].totalCost.GetOr(0.0) >= 0.0) ==> e >= 0.0
  {
    if usage == [] then 0.0
    else
      var prefix := usage[..|usage| - 1];
      assert forall i :: 0 <= i < |prefix| ==> prefix[i] == usage[i];
      EmissionsTotal(prefix) + usage[|usage| - 1].totalCost.GetOr(0.0) * KgCo2ePerUsd
  }

  /** The total cost of the usage items (0 for an item without one). */
  function CostTotal(usage: seq<UsageItem>): (c: real)
    ensures (forall i :: 0 <= i < |usage| ==> usage[i].totalCost.GetOr(0.0) >= 0.0) ==> c >= 0.0
  {
    if usage == [] then 0.0 else usage[0].totalCost.GetOr(0.0) + CostTotal(usage[1..])
  }

  /** `calculate_carbon_emissions`: one kilogram per thousand dollars of
      total cost, never negative when no cost is, and the scope-3 flag echoed. */
  function CalculateCarbonEmissions(usage: seq<UsageItem>, includeScope3: bool): (r: EmissionsReport)
    ensures r.scope3Included == includeScope3
    ensures r.totalKgCo2e == CostTotal(usage) * KgCo2ePerUsd
    ensures (forall i :: 0 <= i < |usage| ==> usage[i].totalCost.GetOr(0.0) >= 0.0) ==> r.totalKgCo2e >= 0.0
  {
    EmissionsAreScaledCost(usage);
    EmissionsReport(EmissionsTotal(usage), includeScope3)
  }

  lemma {:induction false} CostTotalAppend(a: seq<UsageItem>, b: seq<UsageItem>)
    ensures CostTotal(a + b) == CostTotal(a) + CostTotal(b)
  {
    if a == [] {
      assert a + b == b;
    } else {
      assert (a + b)[0] == a[0];
      assert (a + b)[1..] == a[1..] + b;
      CostTotalAppend(a[1..], b);
    }
  }

  /** The running sum of per-item emissions is the total cost scaled once. */
  lemma {:induction false} EmissionsAreScaledCost(usage: seq<UsageItem>)
    ensures EmissionsTotal(usage) == CostTotal(usage) * KgCo2ePerUsd
  {
    if usage != [] {
      var n := |usage|;
      EmissionsAreScaledCost(usage[..n - 1]);
      CostTotalAppend(usage[..n - 1], [usage[n - 1]]);
      assert usage[..n - 1] + [usage[n - 1]] == usage;
    }
  }

  /** `max(0, 100 - emissions.get("total_kg_co2e", 0) * 0.1)`. */
  function CalculateSustainabilityScore(totalKgCo2e: Option<real>): (score: real)
    ensures score >= 0.0
    ensures score == 100.0 <==> totalKgCo2e.GetOr(0.0) == 0.0
    ensures score <= 100.0 <==> totalKgCo2e.GetOr(0.0) >= 0.0
    ensures score == 0.0 <==> totalKgCo2e.GetOr(0.0) >= 1000.0
  {
    var raw := 100.0 - totalKgCo2e.GetOr(0.0) * 0.1;
    if 0.0 >= raw then 0.0 else raw
  }

  /** Scoring the emissions of usage items with non-negative costs gives a
      score between 0 and 100. */
  lemma ScoreOfEmissionsInRange(usage: seq<UsageItem>, includeScope3: bool)
    requires forall i :: 0 <= i < |usage| ==> usage[i].totalCost.GetOr(0.0) >= 0.0
    ensures 0.0 <= CalculateSustainabilityScore(Some(CalculateCarbonEmissions(usage, includeScope3).totalKgCo2e)) <= 100.0
  {
  }
}
