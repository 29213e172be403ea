/**
 * The records that cross component boundaries: the typed models of
 * app/models, the dictionaries that services return, and the row payloads
 * persisted into the warehouse tables.
 */
module Models {
  import opened Wrappers

  // ----- correlation pipeline -----

  /** One correlation record as returned by `correlate_business_ai_metrics`
      (keys "metric", "coeff", "intercept", "mse"). */
  datatype Correlation = Correlation(metric: string, coeff: real, intercept: real, mse: real)

  /** One entry of `calculate_ai_roi` (keys "metric", "roi_score"). */
  datatype RoiEntry = RoiEntry(metric: string, roiScore: real)

  /** The comment of an insight: the coefficient and the error it reports
      (the text renders both with two decimals). */
  datatype InsightComment = InsightComment(coeff: real, mse: real)

  /** `CorrelationInsight` (app/models/performance_correlation.py). */
  datatype CorrelationInsight = CorrelationInsight(
    workload: string,
    modelId: string,
    cost: real,
    kpiImpactScore: real,
    roiScore: real,
    comment: InsightComment)

  // ----- anomalies -----

  datatype Severity = Critical | High | Moderate | Low

  /** `Anomaly` (app/models/anomaly.py); the free-text description is not kept. */
  datatype Anomaly = Anomaly(
    kind: string,
    timestamp: string,
    affectedComponent: string,
    severity: Severity,
    suggestedAction: string)

  // ----- forecasts -----

  /** One forecast dictionary produced by the Vertex service
      (keys "resource", "forecast", "unit" and, optionally, "horizon"). */
  datatype VertexForecast = VertexForecast(resource: string, forecast: real, unit: string, horizon: Option<string>)

  /** `Forecast` (app/models/forecast.py). */
  datatype Forecast = Forecast(
    category: string,
    metricName: string,
    forecastValue: real,
    unit: string,
    predictionHorizon: string,
    confidenceInterval: string,
    insights: string)

  // ----- business metrics -----

  /** `BusinessKPIData` (app/models/business_metrics.py): every field optional. */
  datatype BusinessKpiData = BusinessKpiData(
    mrr: Option<real>,
    arr: Option<real>,
    ltv: Option<real>,
    churnRate: Option<real>,
    csat: Option<real>,
    nps: Option<real>,
    opsCost: Option<real>,
    timestamp: Option<string>)

  /** The dictionary returned by the financial integration: its numeric
      entries in insertion order, and its "timestamp" entry when present. */
  datatype Financials = Financials(entries: seq<(string, real)>, timestamp: Option<string>)

  /** Python dictionaries have distinct keys; "timestamp" is held apart. */
  ghost predicate WellFormedFinancials(f: Financials) {
    && (forall i, j :: 0 <= i < j < |f.entries| ==> f.entries[i].0 != f.entries[j].0)
    && (forall i :: 0 <= i < |f.entries| ==> f.entries[i].0 != "timestamp")
  }

  /** `d.get(key)` on the numeric entries: the first entry with that key. */
  function Lookup(entries: seq<(string, real)>, key: string): (r: Option<real>)
    ensures r.Some? <==> exists i :: 0 <= i < |entries| && entries[i].0 == key
    ensures r.Some? ==> exists i :: 0 <= i < |entries| && entries[i] == (key, r.value)
  {
    if entries == [] then None
    else if entries[0].0 == key then Some(entries[0].1)
    else
      var r := Lookup(entries[1..], key);
      assert forall i :: 0 < i < |entries| ==> entries[i] == entries[1..][i - 1];
      r
  }

  // ----- persisted rows -----

  /** A row handed to `insert_rows`; one constructor per destination table. */
  datatype Row =
      /** Table "roi_correlations". */
    | CorrelationRow(
        timestamp: string,
        aiSystemId: string,
        infrastructureCost: real,
        businessValue: real,
        roiScore: real,
        confidenceLevel: real,
        correlationMetadata: Correlation)
      /** Table "forecasts". */
    | ForecastRow(
        timestamp: string,
        category: string,
        metricName: string,
        forecastValue: real,
        unit: string,
        predictionHorizon: string,
        confidenceInterval: string,
        insights: string)
      /** Table "business_metrics" (`aiSystem` is the "ai_system_id" key); `metadata` is None when the key is absent. */
    | BusinessMetricRow(
        metricName: string,
        metricValue: real,
        metricUnit: string,
        timestamp: string,
        businessUnit: string,
        aiSystem: Option<string>,
        metadata: Option<seq<(string, string)>>)

  /** One call of `insert_rows(table_name, rows)`. */
  datatype InsertCall = InsertCall(table: string, rows: seq<Row>)
}
