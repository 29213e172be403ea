/**
 * `ForecastingAgent.predict_ai_infra_trends`: every Vertex forecast becomes
 * a `Forecast` and a "forecasts" row with fixed horizon, confidence and
 * insights, all rows share one timestamp, and the rows are persisted in a
 * single insert.
 */
module ForecastingAgent {
  import opened Wrappers
  import opened Models
  import opened Warehouse
  import opened VertexAiService

  const ForecastTable := "forecasts"
  const Horizon := "30d"
  const Confidence := "90%"
  const CostCategory := "Cost"
  const UsageCategory := "Usage"

  // ----- the category rule -----

  /** `needle` occurs in `hay` starting at position `i`. */
  predicate OccursAt(needle: string, hay: string, i: int) {
    0 <= i && i + |needle| <= |hay| && hay[i..i + |needle|] == needle
  }

  /** `needle` occurs in `hay` at some position (case-sensitive). */
  ghost predicate OccursIn(needle: string, hay: string) {
    exists i :: OccursAt(needle, hay, i)
  }

  /** Python's `needle in hay` on strings. */
  function Contains(hay: string, needle: string): (b: bool)
    ensures b ==> |needle| <= |hay|
    ensures needle == [] ==> b
    decreases |hay|
  {
    if |hay| < |needle| then false
    else if hay[..|needle|] == needle then true
    else Contains(hay[1..], needle)
  }

  lemma {:induction false} ContainsIff(hay: string, needle: string)
    ensures Contains(hay, needle) <==> OccursIn(needle, hay)
    decreases |hay|
  {
    var n := |needle|;
    if |hay| < n {
    } else if hay[..n] == needle {
      assert OccursAt(needle, hay, 0);
    } else {
      ContainsIff(hay[1..], needle);
      if OccursIn(needle, hay) {
        var i :| OccursAt(needle, hay, i);
        assert i != 0;
        SliceOfTail(hay, i - 1, n);
        assert OccursAt(needle, hay[1..], i - 1);
      }
      if OccursIn(needle, hay[1..]) {
        var i :| OccursAt(needle, hay[1..], i);
        SliceOfTail(hay, i, n);
        assert OccursAt(needle, hay, i + 1);
      }
    }
  }

  /** A window of the tail is the window of the whole one position further
      on; its own lemma so that `ContainsIff` does not rely on the solver
      finding this sequence equality unaided. */
  lemma SliceOfTail(s: string, i: nat, n: nat)
    requires i + n < |s|
    ensures s[1..][i..i + n] == s[i + 1..i + 1 + n]
  {
  }

  /** `"Cost" if "CPU" in f["resource"] else "Usage"`. */
  function CategoryOf(resource: string): (c: string)
    ensures c == CostCategory <==> OccursIn("CPU", resource)
    ensures c != CostCategory ==> c == UsageCategory
  {
    ContainsIff(resource, "CPU");
    if Contains(resource, "CPU") then CostCategory else UsageCategory
  }

  /** "vCPU" is a cost forecast; "TPU" is not, and neither is "cpu": the
      match is case-sensitive. */
  lemma CategoryExamples()
    ensures CategoryOf("vCPU") == CostCategory
    ensures CategoryOf("TPU") == UsageCategory
    ensures CategoryOf("cpu") == UsageCategory
  {
    assert "vCPU"[1..][..3] == "CPU";
    assert "TPU"[0] != "CPU"[0];
    assert "cpu"[0] != "CPU"[0];
  }

  // ----- the transform loop -----

  /** The loop of `predict_ai_infra_trends`: one `Forecast` and one row per
      Vertex forecast, in input order. The category is "Cost" exactly when the
      resource name contains "CPU"; name, value and unit are copied; the
      horizon is the requested one, the confidence "90%" and the insights
      empty; each row repeats its forecast field by field and carries the one
      timestamp taken before the loop. */
  method TransformForecasts(forecasts: seq<VertexForecast>, horizon: string, timestamp: string)
    returns (results: seq<Forecast>, rows: seq<Row>)
    ensures |results| == |rows| == |forecasts|
    ensures forall i :: 0 <= i < |forecasts| ==>
      && (results[i].category == CostCategory <==> OccursIn("CPU", forecasts[i].resource))
      && (results[i].category != CostCategory ==> results[i].category == UsageCategory)
      && results[i].metricName == forecasts[i].resource
      && results[i].forecastValue == forecasts[i].forecast
      && results[i].unit == forecasts[i].unit
      && results[i].predictionHorizon == horizon
      && results[i].confidenceInterval == Confidence
      && results[i].insights == ""
    ensures forall i :: 0 <= i < |forecasts| ==>
      rows[i] == ForecastRow(timestamp, results[i].category, results[i].metricName, results[i].forecastValue,
                             results[i].unit, results[i].predictionHorizon, results[i].confidenceInterval,
                             results[i].insights)
  {
    results := [];
    rows := [];
    for i := 0 to |forecasts|
      invariant |results| == |rows| == i
      invariant forall k :: 0 <= k < i ==>
        && (results[k].category == CostCategory <==> OccursIn("CPU", forecasts[k].resource))
        && (results[k].category != CostCategory ==> results[k].category == UsageCategory)
        && results[k].metricName == forecasts[k].resource
        && results[k].forecastValue == forecasts[k].forecast
        && results[k].unit == forecasts[k].unit
        && results[k].predictionHorizon == horizon
        && results[k].confidenceInterval == Confidence
        && results[k].insights == ""
      invariant forall k :: 0 <= k < i ==>
        rows[k] == ForecastRow(timestamp, results[k].category, results[k].metricName, results[k].forecastValue,
                               results[k].unit, results[k].predictionHorizon, results[k].confidenceInterval,
                               results[k].insights)
    {
      var f := forecasts[i];
      var fc := Forecast(CategoryOf(f.resource), f.resource, f.forecast, f.unit, horizon, Confidence, "");
      results := results + [fc];
      rows := rows + [ForecastRow(timestamp, fc.category, fc.metricName, fc.forecastValue, fc.unit,
                                  fc.predictionHorizon, fc.confidenceInterval, fc.insights)];
    }
  }

  /** `predict_ai_infra_trends` with the Vertex forecasts and the clock as
      parameters: the horizon is "30d", every forecast is the transform of its
      Vertex forecast, and exactly one insert into "forecasts" carries one row
      per returned forecast, repeating it field by field. */
  method PredictAiInfraTrends(dataset: Dataset, forecasts: seq<VertexForecast>, timestamp: string)
    returns (results: seq<Forecast>)
    modifies dataset
    ensures |results| == |forecasts|
    ensures forall i :: 0 <= i < |results| ==>
      && results[i].category == CategoryOf(forecasts[i].resource)
      && (results[i].category == CostCategory <==> OccursIn("CPU", forecasts[i].resource))
      && (results[i].category != CostCategory ==> results[i].category == UsageCategory)
      && results[i].metricName == forecasts[i].resource
      && results[i].forecastValue == forecasts[i].forecast
      && results[i].unit == forecasts[i].unit
      && results[i].predictionHorizon == Horizon
      && results[i].confidenceInterval == Confidence
      && results[i].insights == ""
    ensures |dataset.inserts| == |old(dataset.inserts)| + 1
    ensures dataset.inserts[..|old(dataset.inserts)|] == old(dataset.inserts)
    ensures var call := dataset.inserts[|old(dataset.inserts)|];
      && call.table == ForecastTable
      && |call.rows| == |results|
      && forall i :: 0 <= i < |results| ==>
           call.rows[i] == ForecastRow(timestamp, results[i].category, results[i].metricName,
                                       results[i].forecastValue, results[i].unit, results[i].predictionHorizon,
                                       results[i].confidenceInterval, results[i].insights)
  {
    var rows;
    results, rows := TransformForecasts(forecasts, Horizon, timestamp);
    dataset.InsertRows(ForecastTable, rows);
  }

  /** With the service's placeholder forecasts the agent reports a vCPU cost
      forecast followed by a TPU usage forecast. */
  lemma PlaceholderCategories<H>(historicalData: seq<H>)
    ensures var fs := ForecastInfrastructureNeeds(historicalData, Horizon);
      CategoryOf(fs[0].resource) == CostCategory && CategoryOf(fs[1].resource) == UsageCategory
  {
    CategoryExamples();
  }
}
